/** The list rules of src/youtube.js once the YouTube Data API responses
    are given: reading `PT#H#M#S` durations, the shorts test, the
    liked-id paging loop, batching by 50, the music/shorts filter of
    `syncLikesForUser`, and the first-wins candidate collection and
    shorts filter of `searchByQueries`. */
module YouTube {
  import opened Wrappers
  import opened Seqs
  import opened Strings

  /** `MUSIC_CATEGORY_ID`. */
  const MusicCategoryId: string := "10"
  /** `MAX_API_PAGE_SIZE`: the most ids or results one request may carry. */
  const MaxApiPageSize: nat := 50
  /** `SHORTS_MAX_SEC`. */
  const ShortsMaxSec: nat := 90

  // ---------------------------------------------------------------------
  // parseDurationSeconds

  /** The length of the run of decimal digits at the front of `t`. */
  function DigitRun(t: string): (d: nat)
    ensures d <= |t|
    ensures forall k :: 0 <= k < d ==> IsDigit(t[k])
    ensures d == |t| || !IsDigit(t[d])
  {
    if t != [] && IsDigit(t[0]) then 1 + DigitRun(t[1..]) else 0
  }

  /** The optional group `(?:(\d+)U)?` of the pattern for the unit letter
      `unit`, matched at the front of `t`: the value of the digits and what
      follows the unit letter, or 0 and `t` itself when the group does not
      match. A shorter digit run cannot help, since a digit is never the
      unit letter. */
  function Component(t: string, unit: char): (string, nat)
  {
    var d := DigitRun(t);
    if 0 < d < |t| && t[d] == unit then (t[d + 1..], DigitsValue(t[..d])) else (t, 0)
  }

  /** Where `PT` occurs in `s` for the first time. */
  function FindPT(s: string): (r: Option<nat>)
    ensures r.Some? ==> r.value + 1 < |s| && s[r.value] == 'P' && s[r.value + 1] == 'T'
    ensures r.Some? ==> forall j :: 0 <= j < r.value ==> !(s[j] == 'P' && s[j + 1] == 'T')
    ensures r.None? ==> forall j :: 0 <= j < |s| - 1 ==> !(s[j] == 'P' && s[j + 1] == 'T')
  {
    if |s| < 2 then None
    else if s[0] == 'P' && s[1] == 'T' then Some(0)
    else
      match FindPT(s[1..])
      case None => None
      case Some(i) => Some(i + 1)
  }

  /** `parseDurationSeconds(iso)`: `None` stands for `null`, and for an
      input that is missing or not a string. The pattern is not anchored,
      so the first `PT` anywhere counts and anything may follow the
      groups. */
  function ParseDurationSeconds(iso: Option<string>): Option<nat>
  {
    match iso
    case None => None
    case Some(s) =>
      if s == "" then None
      else
        match FindPT(s)
        case None => None
        case Some(i) => Some(SecondsAfterPT(s[i + 2..]))
  }

  /** The groups `(?:(\d+)H)?(?:(\d+)M)?(?:(\d+)S)?` read after `PT`, as
      `h * 3600 + min * 60 + s`. */
  function SecondsAfterPT(t: string): nat
  {
    var hours := Component(t, 'H');
    var minutes := Component(hours.0, 'M');
    var seconds := Component(minutes.0, 'S');
    hours.1 * 3600 + minutes.1 * 60 + seconds.1
  }

  /** The text of one component: its digits and unit letter, or nothing. */
  function Piece(o: Option<nat>, unit: char): string
  {
    if o.Some? then NatToDigits(o.value) + [unit] else ""
  }

  function ValueOr0(o: Option<nat>): nat
  {
    if o.Some? then o.value else 0
  }

  /** The seconds a duration with these components stands for. */
  function DurationValue(h: Option<nat>, m: Option<nat>, s: Option<nat>): nat
  {
    ValueOr0(h) * 3600 + ValueOr0(m) * 60 + ValueOr0(s)
  }

  /** The duration `PT[<h>H][<m>M][<s>S]` with the components given. */
  function FormatDuration(h: Option<nat>, m: Option<nat>, s: Option<nat>): string
  {
    "PT" + (Piece(h, 'H') + (Piece(m, 'M') + Piece(s, 'S')))
  }

  lemma {:induction false} DigitRunOf(ds: string, rest: string)
    requires forall k :: 0 <= k < |ds| ==> IsDigit(ds[k])
    requires rest == [] || !IsDigit(rest[0])
    ensures DigitRun(ds + rest) == |ds|
    decreases |ds|
  {
    if ds == [] {
      assert ds + rest == rest;
    } else {
      assert (ds + rest)[1..] == ds[1..] + rest;
      DigitRunOf(ds[1..], rest);
    }
  }

  /** A component that is present is read back with its value. */
  lemma ComponentPresent(n: nat, unit: char, rest: string)
    requires !IsDigit(unit)
    ensures Component(Piece(Some(n), unit) + rest, unit) == (rest, n)
  {
    var ds := NatToDigits(n);
    var t := ds + [unit] + rest;
    assert t == ds + ([unit] + rest);
    DigitRunOf(ds, [unit] + rest);
    assert t[..|ds|] == ds && t[|ds|] == unit && t[|ds| + 1..] == rest;
    NatToDigitsValue(n);
  }

  /** An absent component reads as 0 and consumes nothing, whatever later
      component of another unit follows. */
  lemma ComponentAbsent(o: Option<nat>, other: char, unit: char, rest: string)
    requires !IsDigit(other) && other != unit
    requires o.None? ==> rest == [] || !IsDigit(rest[0])
    ensures Component(Piece(o, other) + rest, unit) == (Piece(o, other) + rest, 0)
  {
    if o.Some? {
      var ds := NatToDigits(o.value);
      var t := ds + [other] + rest;
      assert t == ds + ([other] + rest);
      DigitRunOf(ds, [other] + rest);
      assert t[|ds|] == other;
    } else {
      assert Piece(o, other) + rest == rest;
      DigitRunOf([], rest);
      assert [] + rest == rest;
    }
  }

  lemma PieceStart(o: Option<nat>, unit: char)
    ensures Piece(o, unit) == [] || IsDigit(Piece(o, unit)[0])
  {
    if o.Some? {
      assert Piece(o, unit)[0] == NatToDigits(o.value)[0];
    }
  }

  /** Reading back: each component present gives its value, each absent
      one counts 0. */
  lemma ParseFormatDuration(h: Option<nat>, m: Option<nat>, s: Option<nat>)
    ensures ParseDurationSeconds(Some(FormatDuration(h, m, s))) == Some(DurationValue(h, m, s))
  {
    ParseLeadingPT(Piece(h, 'H') + (Piece(m, 'M') + Piece(s, 'S')));
    SecondsOfPieces(h, m, s);
  }

  /** A duration that starts with `PT` is read right after it. */
  lemma ParseLeadingPT(t: string)
    ensures ParseDurationSeconds(Some("PT" + t)) == Some(SecondsAfterPT(t))
  {
    var str := "PT" + t;
    assert str[0] == 'P' && str[1] == 'T';
    assert FindPT(str) == Some(0);
    assert str[2..] == t;
  }

  lemma SecondsOfPieces(h: Option<nat>, m: Option<nat>, s: Option<nat>)
    ensures SecondsAfterPT(Piece(h, 'H') + (Piece(m, 'M') + Piece(s, 'S'))) == DurationValue(h, m, s)
  {
    HoursStep(h, m, s);
    MinutesStep(m, s);
    SecondsStep(s);
  }

  lemma HoursStep(h: Option<nat>, m: Option<nat>, s: Option<nat>)
    ensures var rest := Piece(m, 'M') + Piece(s, 'S');
            Component(Piece(h, 'H') + rest, 'H') == (rest, ValueOr0(h))
  {
    var pm, ps := Piece(m, 'M'), Piece(s, 'S');
    if h.Some? {
      ComponentPresent(h.value, 'H', pm + ps);
    } else if pm != [] {
      PieceStart(s, 'S');
      ComponentAbsent(m, 'M', 'H', ps);
      assert Piece(h, 'H') + (pm + ps) == pm + ps;
    } else {
      ComponentAbsent(s, 'S', 'H', []);
      assert Piece(h, 'H') + (pm + ps) == ps + [] == pm + ps;
    }
  }

  lemma MinutesStep(m: Option<nat>, s: Option<nat>)
    ensures Component(Piece(m, 'M') + Piece(s, 'S'), 'M') == (Piece(s, 'S'), ValueOr0(m))
  {
    var ps := Piece(s, 'S');
    if m.Some? {
      ComponentPresent(m.value, 'M', ps);
    } else {
      ComponentAbsent(s, 'S', 'M', []);
      assert ps + [] == ps;
      assert Piece(m, 'M') + ps == ps;
    }
  }

  lemma SecondsStep(s: Option<nat>)
    ensures Component(Piece(s, 'S'), 'S').1 == ValueOr0(s)
  {
    if s.Some? {
      ComponentPresent(s.value, 'S', []);
      assert Piece(s, 'S') + [] == Piece(s, 'S');
    } else {
      DigitRunOf([], []);
    }
  }

  /** `null` exactly when the input is missing, empty, or holds no `PT`. */
  lemma ParseDurationNull(iso: Option<string>)
    ensures ParseDurationSeconds(iso).None? <==>
              iso.None? || forall j :: 0 <= j < |iso.value| - 1 ==> !(iso.value[j] == 'P' && iso.value[j + 1] == 'T')
  {
  }

  /** `isShortsLike`: the duration is known and at most 90 seconds. */
  predicate IsShortsLike(durationSeconds: Option<nat>)
  {
    durationSeconds.Some? && durationSeconds.value <= ShortsMaxSec
  }

  /** An unreadable duration never marks a short; a duration written as
      hours, minutes and seconds marks one exactly when it totals at most
      90 seconds (`PT1M30S` does, `PT1M31S` does not). */
  lemma ShortsOfFormat(h: Option<nat>, m: Option<nat>, s: Option<nat>)
    ensures IsShortsLike(ParseDurationSeconds(Some(FormatDuration(h, m, s)))) <==> DurationValue(h, m, s) <= ShortsMaxSec
  {
    ParseFormatDuration(h, m, s);
  }

  /** A missing or `PT`-less duration is never short. */
  lemma ShortsOfUnreadable(iso: Option<string>)
    requires iso.None? || forall j :: 0 <= j < |iso.value| - 1 ==> !(iso.value[j] == 'P' && iso.value[j + 1] == 'T')
    ensures !IsShortsLike(ParseDurationSeconds(iso))
  {
    ParseDurationNull(iso);
  }

  // ---------------------------------------------------------------------
  // fetchLikedVideoIds

  /** One `playlistItems.list` response: the `contentDetails.videoId` of
      each item (`""` when missing) and whether a `nextPageToken` came
      back. */
  datatype LikedPage = LikedPage(videoIds: seq<string>, hasNext: bool)

  /** `items.map(...).filter(Boolean)`. */
  function Batch(p: LikedPage): (b: seq<string>)
    ensures forall k :: 0 <= k < |b| ==> b[k] != ""
  {
    Filter(p.videoIds, NonEmpty)
  }

  /** What the `while (ids.length < max)` loop has gathered after starting
      with `ids` and reading `pages` in turn. A response is requested only
      while fewer than `max` ids are held; the loop stops after a page
      without a next token or without ids. Running out of `pages` stands
      for an empty last page. */
  function Gathered(pages: seq<LikedPage>, ids: seq<string>, max: int): seq<string>
    decreases |pages|
  {
    if |ids| >= max || pages == [] then ids
    else
      var ids' := ids + Batch(pages[0]);
      if !pages[0].hasNext || Batch(pages[0]) == [] then ids'
      else Gathered(pages[1..], ids', max)
  }

  /** `fetchLikedVideoIds(auth, max)` given the responses in order. */
  function LikedVideoIds(pages: seq<LikedPage>, max: int): seq<string>
  {
    Prefix(Gathered(pages, [], max), max)
  }

  /** The paging loop, proved against `LikedVideoIds`. */
  method FetchLikedVideoIds(pages: seq<LikedPage>, max: int) returns (ids: seq<string>)
    ensures ids == LikedVideoIds(pages, max)
  {
    ids := [];
    var k := 0;
    while |ids| < max
      invariant k <= |pages|
      invariant Gathered(pages[k..], ids, max) == Gathered(pages, [], max)
      decreases |pages| - k
    {
      if k == |pages| {
        break;
      }
      var batch := Batch(pages[k]);
      ids := ids + batch;
      if !pages[k].hasNext || |batch| == 0 {
        break;
      }
      assert pages[k..][1..] == pages[k + 1..];
      k := k + 1;
    }
    ids := Prefix(ids, max);
  }

  /** The ids of the batches of `pages`, in order. */
  function BatchIds(pages: seq<LikedPage>): seq<string>
  {
    if pages == [] then [] else Batch(pages[0]) + BatchIds(pages[1..])
  }

  /** How many responses the loop reads when it starts with `ids`. */
  function PagesRead(pages: seq<LikedPage>, ids: seq<string>, max: int): (n: nat)
    ensures n <= |pages|
    decreases |pages|
  {
    if |ids| >= max || pages == [] then 0
    else if !pages[0].hasNext || Batch(pages[0]) == [] then 1
    else 1 + PagesRead(pages[1..], ids + Batch(pages[0]), max)
  }

  /** The gathered ids are the held ones followed by the ids of the pages
      read. */
  lemma {:induction false} GatheredIds(pages: seq<LikedPage>, ids: seq<string>, max: int)
    ensures Gathered(pages, ids, max) == ids + BatchIds(pages[..PagesRead(pages, ids, max)])
    decreases |pages|
  {
    if |ids| >= max || pages == [] {
      assert ids + BatchIds(pages[..0]) == ids;
    } else {
      var b := Batch(pages[0]);
      var n := PagesRead(pages, ids, max);
      assert pages[..n][0] == pages[0];
      if !pages[0].hasNext || b == [] {
        assert pages[..1][1..] == [];
        assert BatchIds(pages[..1]) == b + [];
      } else {
        GatheredIds(pages[1..], ids + b, max);
        assert pages[..n][1..] == pages[1..][..n - 1];
        assert ids + b + BatchIds(pages[1..][..n - 1]) == ids + (b + BatchIds(pages[1..][..n - 1]));
      }
    }
  }

  /** Every id of a batch is non-empty. */
  lemma {:induction false} BatchIdsNonEmpty(pages: seq<LikedPage>)
    ensures forall k :: 0 <= k < |BatchIds(pages)| ==> BatchIds(pages)[k] != ""
  {
    if pages != [] {
      BatchIdsNonEmpty(pages[1..]);
      var b := Batch(pages[0]);
      forall k | 0 <= k < |BatchIds(pages)| ensures BatchIds(pages)[k] != "" {
        if k >= |b| {
          assert BatchIds(pages)[k] == BatchIds(pages[1..])[k - |b|];
        }
      }
    }
  }

  /** `p` is a prefix of `s`. */
  predicate StartsWithSeq<T(==)>(s: seq<T>, p: seq<T>)
  {
    |p| <= |s| && s[..|p|] == p
  }

  /** At most `max` ids, each non-empty: the first ids of the batches of
      the responses read, in page order. */
  lemma LikedVideoIdsProperties(pages: seq<LikedPage>, max: int)
    ensures max >= 0 ==> |LikedVideoIds(pages, max)| <= max
    ensures forall k :: 0 <= k < |LikedVideoIds(pages, max)| ==> LikedVideoIds(pages, max)[k] != ""
    ensures StartsWithSeq(BatchIds(pages[..PagesRead(pages, [], max)]), LikedVideoIds(pages, max))
  {
    GatheredIds(pages, [], max);
    var n := PagesRead(pages, [], max);
    var g := Gathered(pages, [], max);
    assert g == BatchIds(pages[..n]);
    BatchIdsNonEmpty(pages[..n]);
    var r := LikedVideoIds(pages, max);
    assert r == g[..SliceEnd(|g|, max)];
    forall k | 0 <= k < |r| ensures r[k] != "" {
      assert r[k] == g[k];
    }
  }

  /** When every page is full, has a next token and brings at least one
      id, the loop stops only once `max` ids are held, so exactly `max`
      come back. */
  lemma {:induction false} GatheredEnough(pages: seq<LikedPage>, ids: seq<string>, max: int)
    requires forall k :: 0 <= k < |pages| ==> pages[k].hasNext && Batch(pages[k]) != []
    requires |ids| + |pages| >= max
    ensures |Gathered(pages, ids, max)| >= max
    decreases |pages|
  {
    if |ids| >= max || pages == [] {
    } else {
      assert |Batch(pages[0])| >= 1;
      GatheredEnough(pages[1..], ids + Batch(pages[0]), max);
    }
  }

  // ---------------------------------------------------------------------
  // Batching by 50 (fetchVideoMeta, fetchVideoDurations)

  /** The `videos.list` requests: `videoIds.slice(i, i + 50)` for
      `i = 0, 50, 100, ...`; together they hold every id exactly once, in
      order, and none holds more than 50. */
  method RequestBatches(videoIds: seq<string>) returns (batches: seq<seq<string>>)
    ensures Flatten(batches) == videoIds
    ensures forall k :: 0 <= k < |batches| ==> 0 < |batches[k]| <= MaxApiPageSize
    ensures forall k :: 0 <= k < |batches| - 1 ==> |batches[k]| == MaxApiPageSize
  {
    batches := ChunkLoop(videoIds, MaxApiPageSize);
    ChunksProperties(videoIds, MaxApiPageSize);
  }

  // ---------------------------------------------------------------------
  // fetchVideoMeta and the filter of syncLikesForUser

  /** `sn?.thumbnails?.medium?.url || sn?.thumbnails?.default?.url || null`. */
  function Thumbnail(medium: string, default: string): (r: Option<string>)
    ensures r.Some? <==> medium != "" || default != ""
    ensures r.Some? ==> r.value == if medium != "" then medium else default
  {
    if medium != "" then Some(medium) else if default != "" then Some(default) else None
  }

  /** One `videos.list` item, missing strings as `""`. */
  datatype VideoItem = VideoItem(id: string, title: string, channelTitle: string, categoryId: string,
                                 publishedAt: string, mediumUrl: string, defaultUrl: string, duration: Option<string>)

  /** The record `fetchVideoMeta` pushes. */
  datatype VideoMeta = VideoMeta(videoId: string, title: string, channelTitle: string, categoryId: Option<string>,
                                 publishedAt: Option<string>, thumbnail: Option<string>, durationSeconds: Option<nat>)

  function OrNull(s: string): Option<string>
  {
    if s != "" then Some(s) else None
  }

  /** The metadata record of one item. */
  function MetaOf(it: VideoItem): (m: VideoMeta)
    ensures m.videoId == it.id && m.durationSeconds == ParseDurationSeconds(it.duration)
    ensures m.categoryId == Some(MusicCategoryId) <==> it.categoryId == MusicCategoryId
  {
    VideoMeta(it.id, it.title, it.channelTitle, OrNull(it.categoryId), OrNull(it.publishedAt),
              Thumbnail(it.mediumUrl, it.defaultUrl), ParseDurationSeconds(it.duration))
  }

  predicate IsMusic(m: VideoMeta)
  {
    m.categoryId == Some(MusicCategoryId)
  }

  predicate IsShortMeta(m: VideoMeta)
  {
    IsShortsLike(m.durationSeconds)
  }

  predicate NotShortMeta(m: VideoMeta)
  {
    !IsShortsLike(m.durationSeconds)
  }

  /** What `syncLikesForUser` returns. */
  datatype SyncResult = SyncResult(skipped: bool, count: nat)

  /** The music items without shorts, and how many shorts were removed:
      the `filter` with the `shortsRemoved` counter. */
  method DropShortMetas(onlyMusic: seq<VideoMeta>) returns (kept: seq<VideoMeta>, removed: nat)
    ensures kept == Filter(onlyMusic, NotShortMeta)
    ensures removed == |Filter(onlyMusic, IsShortMeta)|
    ensures removed + |kept| == |onlyMusic|
  {
    kept, removed := [], 0;
    for i := 0 to |onlyMusic|
      invariant kept == Filter(onlyMusic[..i], NotShortMeta)
      invariant removed == |Filter(onlyMusic[..i], IsShortMeta)|
      invariant removed + |kept| == i
    {
      kept, removed := DropShortMetaStep(onlyMusic, i, kept, removed);
    }
    assert onlyMusic[..|onlyMusic|] == onlyMusic;
  }

  /** One call of the filter callback. */
  method DropShortMetaStep(onlyMusic: seq<VideoMeta>, i: nat, kept: seq<VideoMeta>, removed: nat)
    returns (kept': seq<VideoMeta>, removed': nat)
    requires i < |onlyMusic|
    requires kept == Filter(onlyMusic[..i], NotShortMeta) && removed == |Filter(onlyMusic[..i], IsShortMeta)|
    requires removed + |kept| == i
    ensures kept' == Filter(onlyMusic[..i + 1], NotShortMeta) && removed' == |Filter(onlyMusic[..i + 1], IsShortMeta)|
    ensures removed' + |kept'| == i + 1
  {
    FilterSnoc(onlyMusic, i, NotShortMeta);
    FilterSnoc(onlyMusic, i, IsShortMeta);
    var dur := onlyMusic[i].durationSeconds;
    kept', removed' := kept, removed;
    if dur != None && dur.value <= ShortsMaxSec {
      removed' := removed + 1;
    } else {
      kept' := kept + [onlyMusic[i]];
    }
  }

  /** `syncLikesForUser` given the stored row count `already`, the `force`
      option, and the metadata fetched for the liked ids: the rows it
      writes and the result it returns. */
  method SyncLikes(already: nat, force: bool, metas: seq<VideoMeta>)
    returns (rows: seq<VideoMeta>, r: SyncResult)
    ensures already > 0 && !force ==> rows == [] && r == SyncResult(true, already)
    ensures !(already > 0 && !force) ==>
              rows == Filter(Filter(metas, IsMusic), NotShortMeta) && r == SyncResult(false, |rows|)
  {
    if already > 0 && !force {
      return [], SyncResult(true, already);
    }
    var onlyMusic := Filter(metas, IsMusic);
    var removed;
    rows, removed := DropShortMetas(onlyMusic);
    r := SyncResult(false, |rows|);
  }

  /** The stored rows are exactly the music items that are not shorts, in
      order. */
  lemma SyncRowsExact(metas: seq<VideoMeta>)
    ensures var rows := Filter(Filter(metas, IsMusic), NotShortMeta);
            && Subseq(rows, metas)
            && (forall k :: 0 <= k < |rows| ==> IsMusic(rows[k]) && !IsShortMeta(rows[k]))
            && (forall k :: 0 <= k < |metas| && IsMusic(metas[k]) && !IsShortMeta(metas[k]) ==> metas[k] in rows)
  {
    var music := Filter(metas, IsMusic);
    var rows := Filter(music, NotShortMeta);
    FilterSubseq(metas, IsMusic);
    FilterSubseq(music, NotShortMeta);
    SubseqTrans(rows, music, metas);
    forall k | 0 <= k < |rows| ensures IsMusic(rows[k]) && !IsShortMeta(rows[k]) {
      assert rows[k] in music;
    }
    forall k | 0 <= k < |metas| && IsMusic(metas[k]) && !IsShortMeta(metas[k]) ensures metas[k] in rows {
      assert metas[k] in music;
      var j :| 0 <= j < |music| && music[j] == metas[k];
      assert NotShortMeta(music[j]);
    }
  }

  // ---------------------------------------------------------------------
  // searchByQueries

  /** `Math.min(perQuery, MAX_API_PAGE_SIZE)`: the `maxResults` sent. */
  function RequestLimit(perQuery: int): (l: int)
    ensures l <= MaxApiPageSize && l <= perQuery
    ensures l == perQuery || l == MaxApiPageSize
  {
    Min(perQuery, MaxApiPageSize)
  }

  /** One `search.list` result, missing strings as `""`. */
  datatype SearchItem = SearchItem(videoId: string, title: string, channelTitle: string,
                                   publishedAt: string, mediumUrl: string, defaultUrl: string)

  /** The query sent and the items that came back. */
  datatype SearchResponse = SearchResponse(query: string, items: seq<SearchItem>)

  /** A candidate as stored in the `candidates` map; `durationSeconds` is
      filled in by the shorts filter and is `None` before it. */
  datatype Candidate = Candidate(videoId: string, title: string, channelTitle: string, publishedAt: Option<string>,
                                 thumbnail: Option<string>, sourceQuery: string, durationSeconds: Option<nat>)

  function CandidateOf(it: SearchItem, q: string): (c: Candidate)
    ensures c.videoId == it.videoId && c.sourceQuery == q
  {
    Candidate(it.videoId, it.title, it.channelTitle, OrNull(it.publishedAt),
              Thumbnail(it.mediumUrl, it.defaultUrl), q, None)
  }

  /** The items of one response as candidates tagged with its query. */
  function Tagged(r: SearchResponse): (cs: seq<Candidate>)
    ensures |cs| == |r.items|
  {
    seq(|r.items|, j requires 0 <= j < |r.items| => CandidateOf(r.items[j], r.query))
  }

  /** Every item of every response, in order, tagged with its query. */
  function AllTagged(responses: seq<SearchResponse>): seq<Candidate>
  {
    if responses == [] then [] else AllTagged(Init(responses)) + Tagged(Last(responses))
  }

  predicate HasVideoId(c: Candidate)
  {
    c.videoId != ""
  }

  function VideoIdOf(c: Candidate): string
  {
    c.videoId
  }

  /** The values of the `candidates` map in insertion order: the first
      candidate of each non-empty id. */
  function Candidates(responses: seq<SearchResponse>): seq<Candidate>
  {
    DedupBy(Filter(AllTagged(responses), HasVideoId), VideoIdOf)
  }

  /** The two nested loops that fill the `candidates` map. */
  method CollectCandidates(responses: seq<SearchResponse>) returns (cands: seq<Candidate>)
    ensures cands == Candidates(responses)
  {
    cands := [];
    var seen: set<string> := {};
    for k := 0 to |responses|
      invariant cands == Candidates(responses[..k])
      invariant seen == KeysOf(Filter(AllTagged(responses[..k]), HasVideoId), VideoIdOf)
    {
      assert Init(responses[..k + 1]) == responses[..k] && Last(responses[..k + 1]) == responses[k];
      cands, seen := CollectResponse(AllTagged(responses[..k]), responses[k], cands, seen);
    }
    assert responses[..|responses|] == responses;
  }

  /** The inner loop over one response's items. */
  method CollectResponse(ghost before: seq<Candidate>, r: SearchResponse, cands: seq<Candidate>, seen: set<string>)
    returns (cands': seq<Candidate>, seen': set<string>)
    requires cands == DedupBy(Filter(before, HasVideoId), VideoIdOf)
    requires seen == KeysOf(Filter(before, HasVideoId), VideoIdOf)
    ensures cands' == DedupBy(Filter(before + Tagged(r), HasVideoId), VideoIdOf)
    ensures seen' == KeysOf(Filter(before + Tagged(r), HasVideoId), VideoIdOf)
  {
    assert before + Tagged(r)[..0] == before;
    cands', seen' := cands, seen;
    for j := 0 to |r.items|
      invariant cands' == DedupBy(Filter(before + Tagged(r)[..j], HasVideoId), VideoIdOf)
      invariant seen' == KeysOf(Filter(before + Tagged(r)[..j], HasVideoId), VideoIdOf)
    {
      cands', seen' := CollectAt(before, r, j, cands', seen');
    }
    assert Tagged(r)[..|r.items|] == Tagged(r);
  }

  /** The inner loop body for item `j`. */
  method CollectAt(ghost before: seq<Candidate>, r: SearchResponse, j: nat, cands: seq<Candidate>, seen: set<string>)
    returns (cands': seq<Candidate>, seen': set<string>)
    requires j < |r.items|
    requires cands == DedupBy(Filter(before + Tagged(r)[..j], HasVideoId), VideoIdOf)
    requires seen == KeysOf(Filter(before + Tagged(r)[..j], HasVideoId), VideoIdOf)
    ensures cands' == DedupBy(Filter(before + Tagged(r)[..j + 1], HasVideoId), VideoIdOf)
    ensures seen' == KeysOf(Filter(before + Tagged(r)[..j + 1], HasVideoId), VideoIdOf)
  {
    ConcatPrefixSnoc(before, Tagged(r), j);
    assert Tagged(r)[j] == CandidateOf(r.items[j], r.query);
    cands', seen' := CollectItem(before + Tagged(r)[..j], r.items[j], r.query, cands, seen);
  }

  /** One pass of the inner loop: the item `it` returned for query `q`
      after the tagged items `done`. */
  method CollectItem(ghost done: seq<Candidate>, it: SearchItem, q: string, cands: seq<Candidate>, seen: set<string>)
    returns (cands': seq<Candidate>, seen': set<string>)
    requires cands == DedupBy(Filter(done, HasVideoId), VideoIdOf)
    requires seen == KeysOf(Filter(done, HasVideoId), VideoIdOf)
    ensures cands' == DedupBy(Filter(done + [CandidateOf(it, q)], HasVideoId), VideoIdOf)
    ensures seen' == KeysOf(Filter(done + [CandidateOf(it, q)], HasVideoId), VideoIdOf)
  {
    DedupFilterAppend(done, CandidateOf(it, q), HasVideoId, VideoIdOf);
    var id := it.videoId;
    cands', seen' := cands, seen;
    if id != "" && id !in seen {
      cands' := cands + [CandidateOf(it, q)];
    }
    if id != "" {
      seen' := seen + {id};
    }
  }

  /** The candidates carry non-empty, pairwise distinct ids and keep the
      order of the responses. */
  lemma CandidatesDistinct(responses: seq<SearchResponse>)
    ensures forall i, j :: 0 <= i < j < |Candidates(responses)| ==> Candidates(responses)[i].videoId != Candidates(responses)[j].videoId
    ensures forall k :: 0 <= k < |Candidates(responses)| ==> Candidates(responses)[k].videoId != ""
    ensures Subseq(Candidates(responses), AllTagged(responses))
  {
    var f := Filter(AllTagged(responses), HasVideoId);
    var c := Candidates(responses);
    DedupByDistinctKeys(f, VideoIdOf);
    DedupBySubseq(f, VideoIdOf);
    SubseqElements(c, f);
    forall k | 0 <= k < |c| ensures c[k].videoId != "" {
      assert c[k] in f;
    }
    FilterSubseq(AllTagged(responses), HasVideoId);
    SubseqTrans(c, f, AllTagged(responses));
  }

  /** First wins: each candidate is the first tagged item with its id, so
      its `sourceQuery` is the first query that returned the id; and every
      returned non-empty id has a candidate. */
  lemma CandidatesFirstWins(responses: seq<SearchResponse>, c: Candidate)
    requires c in Candidates(responses)
    ensures exists i :: 0 <= i < |AllTagged(responses)| && AllTagged(responses)[i] == c
              && forall j :: 0 <= j < i ==> AllTagged(responses)[j].videoId != c.videoId
  {
    var all := AllTagged(responses);
    var f := Filter(all, HasVideoId);
    DedupByOnlyFirst(f, VideoIdOf, c);
    var i :| 0 <= i < |f| && f[i] == c && c.videoId !in KeysOf(f[..i], VideoIdOf);
    FirstInFilter(all, i, c);
  }

  /** The `i`-th element of `Filter(all, HasVideoId)` whose id does not
      occur before it there is the first element of `all` with its id. */
  lemma {:induction false} FirstInFilter(all: seq<Candidate>, i: nat, c: Candidate)
    requires i < |Filter(all, HasVideoId)| && Filter(all, HasVideoId)[i] == c
    requires c.videoId !in KeysOf(Filter(all, HasVideoId)[..i], VideoIdOf)
    ensures exists a :: 0 <= a < |all| && all[a] == c && forall j :: 0 <= j < a ==> all[j].videoId != c.videoId
    decreases |all|
  {
    var init := Init(all);
    var fi := Filter(init, HasVideoId);
    var f := Filter(all, HasVideoId);
    assert f == fi + (if HasVideoId(Last(all)) then [Last(all)] else []);
    if i < |fi| {
      assert f[..i] == fi[..i] && f[i] == fi[i];
      FirstInFilter(init, i, c);
      var a :| 0 <= a < |init| && init[a] == c && forall j :: 0 <= j < a ==> init[j].videoId != c.videoId;
      assert all[a] == init[a];
      forall j | 0 <= j < a ensures all[j].videoId != c.videoId {
        assert all[j] == init[j];
      }
    } else {
      assert c == Last(all) && f[..i] == fi;
      assert HasVideoId(c);
      forall j | 0 <= j < |all| - 1 ensures all[j].videoId != c.videoId {
        assert all[j] == init[j];
        if HasVideoId(init[j]) {
          KeyInFilterKeys(init, HasVideoId, VideoIdOf, j);
        }
      }
    }
  }

  /** The key of an element that passes the filter is a key of the
      filtered sequence. */
  lemma KeyInFilterKeys<T, K>(s: seq<T>, p: T -> bool, key: T -> K, j: nat)
    requires j < |s| && p(s[j])
    ensures key(s[j]) in KeysOf(Filter(s, p), key)
  {
    var t :| 0 <= t < |Filter(s, p)| && Filter(s, p)[t] == s[j];
  }

  /** Every returned item with a non-empty id is represented. */
  lemma CandidatesCover(responses: seq<SearchResponse>, i: nat)
    requires i < |AllTagged(responses)| && AllTagged(responses)[i].videoId != ""
    ensures exists k :: 0 <= k < |Candidates(responses)| && Candidates(responses)[k].videoId == AllTagged(responses)[i].videoId
  {
    var all := AllTagged(responses);
    var f := Filter(all, HasVideoId);
    assert all[i] in f;
    var j :| 0 <= j < |f| && f[j] == all[i];
    assert VideoIdOf(f[j]) in KeysOf(f, VideoIdOf);
    DedupByKeys(f, VideoIdOf);
    var c := Candidates(responses);
    assert VideoIdOf(all[i]) in KeysOf(c, VideoIdOf);
  }

  /** `durations.get(videoId)` on the map `fetchVideoDurations` builds:
      `None` for a missing entry and for a `null` one. */
  function DurationOf(durations: map<string, Option<nat>>, id: string): Option<nat>
  {
    if id in durations then durations[id] else None
  }

  /** One `videos.list` item as `fetchVideoDurations` reads it. */
  datatype DurationItem = DurationItem(id: string, duration: Option<string>)

  /** The map `fetchVideoDurations` builds from the items of all its
      requests in order: items without an id are skipped and a later item
      overwrites an earlier one with the same id. */
  function DurationMap(items: seq<DurationItem>): (m: map<string, Option<nat>>)
    ensures forall id :: id in m <==> id != "" && exists k :: 0 <= k < |items| && items[k].id == id
  {
    if items == [] then map[]
    else
      var m := DurationMap(Init(items));
      var it := Last(items);
      assert forall k :: 0 <= k < |items| - 1 ==> items[k] == Init(items)[k];
      if it.id == "" then m else m[it.id := ParseDurationSeconds(it.duration)]
  }

  /** The entry of an id is the parsed duration of its last item. */
  lemma {:induction false} DurationMapLast(items: seq<DurationItem>, k: nat)
    requires k < |items| && items[k].id != ""
    requires forall j :: k < j < |items| ==> items[j].id != items[k].id
    ensures DurationMap(items)[items[k].id] == ParseDurationSeconds(items[k].duration)
    decreases |items|
  {
    if k < |items| - 1 {
      assert Init(items)[k] == items[k];
      forall j | k < j < |Init(items)| ensures Init(items)[j].id != items[k].id {
        assert Init(items)[j] == items[j];
      }
      DurationMapLast(Init(items), k);
    }
  }

  /** A candidate with its duration filled in. */
  function WithDuration(c: Candidate, durations: map<string, Option<nat>>): Candidate
  {
    c.(durationSeconds := DurationOf(durations, c.videoId))
  }

  /** The candidates with their durations filled in. */
  function Annotated(cands: seq<Candidate>, durations: map<string, Option<nat>>): (r: seq<Candidate>)
    ensures |r| == |cands|
    ensures forall i :: 0 <= i < |cands| ==> r[i] == WithDuration(cands[i], durations)
  {
    seq(|cands|, i requires 0 <= i < |cands| => WithDuration(cands[i], durations))
  }

  predicate NotShortCandidate(c: Candidate)
  {
    !IsShortsLike(c.durationSeconds)
  }

  predicate ShortCandidate(c: Candidate)
  {
    IsShortsLike(c.durationSeconds)
  }

  /** The loop over `candidates.values()` that drops shorts. */
  method DropShortCandidates(cands: seq<Candidate>, durations: map<string, Option<nat>>)
    returns (filtered: seq<Candidate>, removed: nat)
    ensures filtered == Filter(Annotated(cands, durations), NotShortCandidate)
    ensures removed == |Filter(Annotated(cands, durations), ShortCandidate)|
    ensures removed + |filtered| == |cands|
  {
    ghost var ann := Annotated(cands, durations);
    filtered, removed := [], 0;
    for i := 0 to |cands|
      invariant filtered == Filter(ann[..i], NotShortCandidate)
      invariant removed == |Filter(ann[..i], ShortCandidate)|
      invariant removed + |filtered| == i
    {
      filtered, removed := DropShortStep(ann, i, cands[i], durations, filtered, removed);
    }
    assert ann[..|cands|] == ann;
  }

  /** One pass of that loop, on the candidate `cand` whose annotated form
      is `ann[i]`. */
  method DropShortStep(ghost ann: seq<Candidate>, i: nat, cand: Candidate, durations: map<string, Option<nat>>,
                       filtered: seq<Candidate>, removed: nat)
    returns (filtered': seq<Candidate>, removed': nat)
    requires i < |ann| && ann[i] == WithDuration(cand, durations)
    requires filtered == Filter(ann[..i], NotShortCandidate) && removed == |Filter(ann[..i], ShortCandidate)|
    requires removed + |filtered| == i
    ensures filtered' == Filter(ann[..i + 1], NotShortCandidate) && removed' == |Filter(ann[..i + 1], ShortCandidate)|
    ensures removed' + |filtered'| == i + 1
  {
    FilterSnoc(ann, i, NotShortCandidate);
    FilterSnoc(ann, i, ShortCandidate);
    var dur := DurationOf(durations, cand.videoId);
    filtered', removed' := filtered, removed;
    if dur != None && dur.value <= ShortsMaxSec {
      removed' := removed + 1;
    } else {
      filtered' := filtered + [cand.(durationSeconds := dur)];
    }
  }

  /** `searchByQueries` once the search responses and the items of the
      duration requests are given. */
  method SearchByQueries(responses: seq<SearchResponse>, durationItems: seq<DurationItem>)
    returns (filtered: seq<Candidate>)
    ensures filtered == Filter(Annotated(Candidates(responses), DurationMap(durationItems)), NotShortCandidate)
  {
    var cands := CollectCandidates(responses);
    var removed;
    filtered, removed := DropShortCandidates(cands, DurationMap(durationItems));
  }

  /** The shorts filter drops exactly the candidates with a known duration
      of at most 90 seconds, keeps the rest in order with their duration,
      and changes nothing else about them. */
  lemma DropShortsExact(cands: seq<Candidate>, durations: map<string, Option<nat>>)
    ensures var r := Filter(Annotated(cands, durations), NotShortCandidate);
            && Subseq(r, Annotated(cands, durations))
            && (forall k :: 0 <= k < |r| ==> !IsShortsLike(r[k].durationSeconds))
            && (forall i :: 0 <= i < |cands| && !IsShortsLike(DurationOf(durations, cands[i].videoId)) ==>
                  WithDuration(cands[i], durations) in r)
  {
    var a := Annotated(cands, durations);
    FilterSubseq(a, NotShortCandidate);
    forall i | 0 <= i < |cands| && !IsShortsLike(DurationOf(durations, cands[i].videoId))
      ensures WithDuration(cands[i], durations) in Filter(a, NotShortCandidate)
    {
      assert a[i] == WithDuration(cands[i], durations);
      assert NotShortCandidate(a[i]);
    }
  }
}
