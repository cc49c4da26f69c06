/** The list and scoring rules of src/spotify.js: query cleaning, the mood
    query tables, deduplication of tracks by id, the track score, the
    per-artist cap, and the assembly in `recommendTracks` once the search
    results are given. */
module Spotify {
  import opened Wrappers
  import opened Seqs
  import opened Strings
  import opened Sorting

  /** A track as `toTrack` shapes it; a missing `id`, `albumName` or
      `releaseDate` is `""`, and `score` is the field `recommendTracks`
      adds. */
  datatype Track = Track(id: string, title: string, artists: seq<string>, popularity: nat,
                         albumName: string, releaseDate: string, score: real)

  // ---------------------------------------------------------------------
  // uniqStrings

  /** The trimmed, non-empty entries, in order. */
  function Cleaned(arr: seq<string>): (c: seq<string>)
    ensures forall k :: 0 <= k < |c| ==> c[k] != "" && Trim(c[k]) == c[k]
  {
    if arr == [] then []
    else
      var s := Trim(Last(arr));
      TrimIdempotent(Last(arr));
      Cleaned(Init(arr)) + (if s != "" then [s] else [])
  }

  /** `uniqStrings(arr)`: the first entry of each lower-cased key among the
      cleaned entries. */
  function UniqStrings(arr: seq<string>): seq<string>
  {
    DedupBy(Cleaned(arr), Lower)
  }

  lemma CleanedSnoc(arr: seq<string>, i: nat)
    requires i < |arr|
    ensures Cleaned(arr[..i + 1]) == Cleaned(arr[..i]) + (if Trim(arr[i]) != "" then [Trim(arr[i])] else [])
  {
    assert Init(arr[..i + 1]) == arr[..i] && Last(arr[..i + 1]) == arr[i];
  }

  /** The loop of `uniqStrings`, with the `seen` set of lower-cased keys. */
  method CollectUniqStrings(arr: seq<string>) returns (out: seq<string>)
    ensures out == UniqStrings(arr)
  {
    out := [];
    var seen: set<string> := {};
    for i := 0 to |arr|
      invariant out == UniqStrings(arr[..i])
      invariant seen == KeysOf(Cleaned(arr[..i]), Lower)
    {
      CleanedSnoc(arr, i);
      var s := Trim(arr[i]);
      if s == "" {
        assert Cleaned(arr[..i]) + [] == Cleaned(arr[..i]);
      } else {
        DedupByAppend(Cleaned(arr[..i]), s, Lower);
        var key := Lower(s);
        if key !in seen {
          seen := seen + {key};
          out := out + [s];
        } else {
          seen := seen + {key};
        }
      }
    }
    assert arr[..|arr|] == arr;
  }

  /** Every output string is trimmed and non-empty. */
  lemma UniqStringsClean(arr: seq<string>)
    ensures forall k :: 0 <= k < |UniqStrings(arr)| ==> UniqStrings(arr)[k] != "" && Trim(UniqStrings(arr)[k]) == UniqStrings(arr)[k]
  {
    var c := Cleaned(arr);
    var u := UniqStrings(arr);
    DedupBySubseq(c, Lower);
    SubseqElements(u, c);
    forall k | 0 <= k < |u| ensures u[k] != "" && Trim(u[k]) == u[k] {
      assert u[k] in c;
      var j :| 0 <= j < |c| && c[j] == u[k];
    }
  }

  /** No two output strings agree after lower-casing. */
  lemma UniqStringsDistinct(arr: seq<string>)
    ensures forall i, j :: 0 <= i < j < |UniqStrings(arr)| ==> Lower(UniqStrings(arr)[i]) != Lower(UniqStrings(arr)[j])
  {
    DedupByDistinctKeys(Cleaned(arr), Lower);
  }

  /** The output keeps input order and represents every lower-cased key of
      the cleaned input. */
  lemma UniqStringsOrder(arr: seq<string>)
    ensures Subseq(UniqStrings(arr), Cleaned(arr))
    ensures KeysOf(UniqStrings(arr), Lower) == KeysOf(Cleaned(arr), Lower)
  {
    DedupBySubseq(Cleaned(arr), Lower);
    DedupByKeys(Cleaned(arr), Lower);
  }

  /** Each output string is the first cleaned entry with its key. */
  lemma UniqStringsFirst(arr: seq<string>, x: string)
    requires x in UniqStrings(arr)
    ensures exists i :: 0 <= i < |Cleaned(arr)| && Cleaned(arr)[i] == x && Lower(x) !in KeysOf(Cleaned(arr)[..i], Lower)
  {
    DedupByOnlyFirst(Cleaned(arr), Lower, x);
  }

  // ---------------------------------------------------------------------
  // buildMoodQueries

  /** `MOOD_KR[mood] || []`. */
  function MoodKr(mood: string): seq<string>
  {
    if mood == "happy" then ["신나는", "기분전환", "여행", "드라이브", "아이돌", "청량한"]
    else if mood == "sad" then ["슬픈", "이별", "발라드", "새벽", "눈물", "그리움"]
    else if mood == "angry" then ["스트레스", "힙합", "강렬한", "락", "터지는"]
    else if mood == "calm" then ["잔잔한", "새벽감성", "카페", "힐링", "어쿠스틱", "잠잘때"]
    else if mood == "energetic" then ["운동", "노동요", "텐션", "파이팅", "댄스", "동기부여"]
    else if mood == "romantic" then ["사랑", "설렘", "고백", "데이트", "달달한", "썸"]
    else if mood == "melancholic" then ["우울", "비오는날", "센치한", "위로", "혼자"]
    else if mood == "focused" then ["공부", "집중", "독서", "피아노", "노동요"]
    else []
  }

  /** `MOOD_SUB_GENRES[mood] || []`. */
  function MoodSubGenres(mood: string): seq<string>
  {
    if mood == "happy" then ["dance", "pop"]
    else if mood == "sad" then ["ballad", "r-n-b"]
    else if mood == "angry" then ["hip-hop", "rock"]
    else if mood == "calm" then ["acoustic", "indie"]
    else if mood == "energetic" then ["dance", "electronic", "hip-hop"]
    else if mood == "romantic" then ["r-n-b", "soul"]
    else if mood == "melancholic" then ["r-n-b", "indie"]
    else if mood == "focused" then ["piano", "jazz"]
    else []
  }

  /** `krKeywords.slice(0, 6).join(" ")`. */
  function KrQuery(mood: string): string
  {
    Join(Prefix(MoodKr(mood), 6), " ")
  }

  /** `[s].filter(Boolean)`. */
  function KeepTruthy(s: string): seq<string>
  {
    if s != "" then [s] else []
  }

  /** The five templates with `.filter(Boolean)` applied. */
  function MoodTemplates(mood: string): seq<string>
  {
    KeepTruthy("genre:k-pop " + mood) + KeepTruthy("genre:k-indie " + mood) + KeepTruthy(KrQuery(mood))
    + KeepTruthy("korean " + mood + " song") + KeepTruthy("genre:k-pop year:2020-2025 " + mood)
  }

  function GenreQuery(sub: string): string
  {
    "genre:k-pop genre:" + sub
  }

  /** `buildMoodQueries(mood)`. */
  function MoodQueries(mood: string): seq<string>
  {
    if mood == "" then []
    else
      MoodTemplates(mood) + GenreQueries(MoodSubGenres(mood))
  }

  /** One `genre:` query per sub-genre, in table order. */
  function GenreQueries(subs: seq<string>): (qs: seq<string>)
    ensures |qs| == |subs| && forall i :: 0 <= i < |subs| ==> qs[i] == GenreQuery(subs[i])
  {
    seq(|subs|, i requires 0 <= i < |subs| => GenreQuery(subs[i]))
  }

  /** The filtered templates and the sub-genre pushes of `buildMoodQueries`. */
  method BuildMoodQueries(mood: string) returns (qList: seq<string>)
    ensures qList == MoodQueries(mood)
  {
    if mood == "" {
      return [];
    }
    qList := PushGenreQueries(MoodTemplates(mood), MoodSubGenres(mood));
  }

  /** `for (const g of subGenres) qList.push("genre:k-pop genre:" + g)`. */
  method PushGenreQueries(qList: seq<string>, subGenres: seq<string>) returns (out: seq<string>)
    ensures out == qList + GenreQueries(subGenres)
  {
    out := qList;
    for i := 0 to |subGenres|
      invariant out == qList + GenreQueries(subGenres[..i])
    {
      assert GenreQueries(subGenres[..i + 1]) == GenreQueries(subGenres[..i]) + [GenreQuery(subGenres[i])];
      out := out + [GenreQuery(subGenres[i])];
    }
    assert subGenres[..|subGenres|] == subGenres;
  }

  /** The Korean query is non-empty exactly for the moods of the table. */
  lemma KrQueryNonEmpty(mood: string)
    ensures KrQuery(mood) != "" <==> MoodKr(mood) != []
  {
    if MoodKr(mood) != [] {
      JoinNonEmpty(Prefix(MoodKr(mood), 6), " ");
    } else {
      assert Prefix(MoodKr(mood), 6) == [];
    }
  }

  /** No mood, no queries; otherwise the four fixed templates with the
      Korean keyword query third when it is non-empty, then one query per
      sub-genre in table order; none is empty. */
  lemma MoodQueriesShape(mood: string)
    ensures mood == "" ==> MoodQueries(mood) == []
    ensures mood != "" ==>
              var qs := MoodQueries(mood);
              var subs := MoodSubGenres(mood);
              var fixed := if KrQuery(mood) != "" then 5 else 4;
              |qs| == fixed + |subs|
              && qs[0] == "genre:k-pop " + mood && qs[1] == "genre:k-indie " + mood
              && (KrQuery(mood) != "" ==> qs[2] == KrQuery(mood))
              && qs[fixed - 2] == "korean " + mood + " song"
              && qs[fixed - 1] == "genre:k-pop year:2020-2025 " + mood
              && (forall i :: 0 <= i < |subs| ==> qs[fixed + i] == "genre:k-pop genre:" + subs[i])
              && (forall k :: 0 <= k < |qs| ==> qs[k] != "")
  {
  }

  // ---------------------------------------------------------------------
  // dedupById

  predicate HasId(t: Track)
  {
    t.id != ""
  }

  function Id(t: Track): string
  {
    t.id
  }

  /** `dedupById(list)`: the first track of each non-empty id. */
  function DedupById(list: seq<Track>): seq<Track>
  {
    DedupBy(Filter(list, HasId), Id)
  }

  method DedupByIdLoop(list: seq<Track>) returns (out: seq<Track>)
    ensures out == DedupById(list)
  {
    out := [];
    var seen: set<string> := {};
    for i := 0 to |list|
      invariant out == DedupById(list[..i])
      invariant seen == KeysOf(Filter(list[..i], HasId), Id)
    {
      out, seen := DedupByIdStep(list, i, out, seen);
    }
    assert list[..|list|] == list;
  }

  /** One pass of the loop body: a track with a new non-empty id is kept
      and its id recorded. */
  method DedupByIdStep(list: seq<Track>, i: nat, out: seq<Track>, seen: set<string>)
    returns (out': seq<Track>, seen': set<string>)
    requires i < |list| && out == DedupById(list[..i]) && seen == KeysOf(Filter(list[..i], HasId), Id)
    ensures out' == DedupById(list[..i + 1]) && seen' == KeysOf(Filter(list[..i + 1], HasId), Id)
  {
    DedupByIdSnoc(list, i);
    var x := list[i];
    out', seen' := out, seen;
    if x.id != "" && x.id !in seen {
      out' := out + [x];
    }
    if x.id != "" {
      seen' := seen + {x.id};
    }
  }

  /** What the next track adds to the output and to the recorded ids. */
  lemma DedupByIdSnoc(list: seq<Track>, i: nat)
    requires i < |list|
    ensures var x := list[i];
            var seen := KeysOf(Filter(list[..i], HasId), Id);
            && DedupById(list[..i + 1])
               == (if x.id != "" && x.id !in seen then DedupById(list[..i]) + [x] else DedupById(list[..i]))
            && KeysOf(Filter(list[..i + 1], HasId), Id) == seen + (if x.id != "" then {x.id} else {})
  {
    DedupFilterStep(list, i, HasId, Id);
    assert HasId(list[i]) == (list[i].id != "") && Id(list[i]) == list[i].id;
  }

  /** Output ids are non-empty and pairwise distinct, and every non-empty id
      of the input is kept. */
  lemma DedupByIdKeys(list: seq<Track>)
    ensures forall k :: 0 <= k < |DedupById(list)| ==> HasId(DedupById(list)[k])
    ensures forall i, j :: 0 <= i < j < |DedupById(list)| ==> DedupById(list)[i].id != DedupById(list)[j].id
    ensures KeysOf(DedupById(list), Id) == KeysOf(Filter(list, HasId), Id)
  {
    var f := Filter(list, HasId);
    DedupByDistinctKeys(f, Id);
    DedupByKeys(f, Id);
    DedupByIdHasId(list);
  }

  lemma DedupByIdHasId(list: seq<Track>)
    ensures forall k :: 0 <= k < |DedupById(list)| ==> HasId(DedupById(list)[k])
  {
    var f := Filter(list, HasId);
    var d := DedupById(list);
    DedupBySubseq(f, Id);
    SubseqElements(d, f);
    forall k | 0 <= k < |d| ensures HasId(d[k]) {
      assert d[k] in f;
      var j :| 0 <= j < |f| && f[j] == d[k];
    }
  }

  /** The output keeps input order. */
  lemma DedupByIdOrder(list: seq<Track>)
    ensures Subseq(DedupById(list), list)
  {
    var f := Filter(list, HasId);
    DedupBySubseq(f, Id);
    FilterSubseq(list, HasId);
    SubseqTrans(DedupById(list), f, list);
  }

  /** Each kept track is the first with its id. */
  lemma DedupByIdFirst(list: seq<Track>, x: Track)
    requires x in DedupById(list)
    ensures exists i :: 0 <= i < |Filter(list, HasId)| && Filter(list, HasId)[i] == x && x.id !in KeysOf(Filter(list, HasId)[..i], Id)
  {
    DedupByOnlyFirst(Filter(list, HasId), Id, x);
  }

  /** Deduplicating twice is deduplicating once. */
  lemma DedupByIdIdempotent(list: seq<Track>)
    ensures DedupById(DedupById(list)) == DedupById(list)
  {
    var d := DedupById(list);
    DedupByIdKeys(list);
    FilterAll(d, HasId);
    DedupByOfDistinct(d, Id);
  }


  // ---------------------------------------------------------------------
  // dedupKeepBestScore

  /** The non-empty ids of `arr`. */
  function IdSet(arr: seq<Track>): (ids: set<string>)
    ensures forall id :: id in ids ==> id != ""
  {
    if arr == [] then {} else IdSet(Init(arr)) + (if HasId(Last(arr)) then {Last(arr).id} else {})
  }

  lemma {:induction false} IdSetMember(arr: seq<Track>, j: nat)
    requires j < |arr| && HasId(arr[j])
    ensures arr[j].id in IdSet(arr)
  {
    if j < |arr| - 1 {
      IdSetMember(Init(arr), j);
    }
  }

  /** The `best` map after the loop. */
  function BestMap(arr: seq<Track>): (m: map<string, Track>)
    ensures m.Keys == IdSet(arr)
    ensures forall id :: id in m ==> m[id].id == id
  {
    if arr == [] then map[]
    else
      var m := BestMap(Init(arr));
      var t := Last(arr);
      if !HasId(t) then m
      else if t.id !in m || t.score > m[t.id].score then m[t.id := t]
      else m
  }

  /** The keys of `best` in insertion order: each id where it first occurs. */
  function IdOrder(arr: seq<Track>): (r: seq<string>)
    ensures forall k :: 0 <= k < |r| ==> r[k] in IdSet(arr)
  {
    if arr == [] then []
    else if !HasId(Last(arr)) || Last(arr).id in IdSet(Init(arr)) then IdOrder(Init(arr))
    else IdOrder(Init(arr)) + [Last(arr).id]
  }

  lemma {:induction false} IdOrderProperties(arr: seq<Track>)
    ensures Distinct(IdOrder(arr))
    ensures forall id :: id in IdSet(arr) ==> id in IdOrder(arr)
  {
    if arr != [] {
      IdOrderProperties(Init(arr));
    }
  }

  /** `Array.from(best.values())`. */
  function DedupKeepBest(arr: seq<Track>): (r: seq<Track>)
    ensures |r| == |IdOrder(arr)|
  {
    var order := IdOrder(arr);
    var m := BestMap(arr);
    seq(|order|, k requires 0 <= k < |order| => m[order[k]])
  }

  lemma PrefixSnoc<T>(arr: seq<T>, i: nat)
    requires i < |arr|
    ensures Init(arr[..i + 1]) == arr[..i] && Last(arr[..i + 1]) == arr[i]
  {
  }

  /** The loop of `dedupKeepBestScore`; `keys` is the insertion order of the
      `best` map. */
  method DedupKeepBestScore(arr: seq<Track>) returns (out: seq<Track>)
    ensures out == DedupKeepBest(arr)
  {
    var best: map<string, Track> := map[];
    var keys: seq<string> := [];
    for i := 0 to |arr|
      invariant best == BestMap(arr[..i]) && keys == IdOrder(arr[..i])
    {
      best, keys := KeepBestStep(arr, i, best, keys);
    }
    assert arr[..|arr|] == arr;
    out := seq(|keys|, k requires 0 <= k < |keys| => best[keys[k]]);
  }

  /** One pass of the loop body: a new id is inserted, a known one is
      replaced only by a strictly higher score. */
  method KeepBestStep(arr: seq<Track>, i: nat, best: map<string, Track>, keys: seq<string>)
    returns (best': map<string, Track>, keys': seq<string>)
    requires i < |arr| && best == BestMap(arr[..i]) && keys == IdOrder(arr[..i])
    ensures best' == BestMap(arr[..i + 1]) && keys' == IdOrder(arr[..i + 1])
  {
    PrefixSnoc(arr, i);
    var t := arr[i];
    best', keys' := best, keys;
    if t.id != "" {
      if t.id !in best {
        keys' := keys + [t.id];
        best' := best[t.id := t];
      } else if t.score > best[t.id].score {
        best' := best[t.id := t];
      }
    }
  }

  /** Where the kept track of an id stands in the input. */
  function BestIndex(arr: seq<Track>, id: string): (i: nat)
    requires id in BestMap(arr)
    ensures i < |arr| && arr[i] == BestMap(arr)[id]
  {
    var m := BestMap(Init(arr));
    var t := Last(arr);
    if HasId(t) && t.id == id && (id !in m || t.score > m[id].score) then |arr| - 1
    else BestIndex(Init(arr), id)
  }

  /** No track with the id scores higher than the kept one. */
  lemma {:induction false} BestIndexMax(arr: seq<Track>, id: string)
    requires id in BestMap(arr)
    ensures forall j :: 0 <= j < |arr| && arr[j].id == id ==> arr[j].score <= arr[BestIndex(arr, id)].score
  {
    var init := Init(arr);
    if BestIndex(arr, id) == |arr| - 1 {
      BestIndexTake(arr, id);
      if id in BestMap(init) {
        BestIndexMax(init, id);
        TopAfter(arr, id, BestIndex(init, id), |arr| - 1);
      } else {
        forall j | 0 <= j < |init| ensures init[j].id != id {
          if init[j].id == id {
            IdSetMember(init, j);
          }
        }
        TopAfter(arr, id, -1, |arr| - 1);
      }
    } else {
      BestIndexKeep(arr, id);
      BestIndexMax(init, id);
      TopAfter(arr, id, BestIndex(init, id), BestIndex(init, id));
    }
  }

  /** The step of the induction on plain sequences: if index `b` of the
      prefix scores at least every prefix track with the id, and `c` scores
      at least `b` (when the prefix has such a track) and the last one,
      then `c` scores at least every track with the id. */
  lemma TopAfter(arr: seq<Track>, id: string, b: int, c: nat)
    requires c < |arr| && -1 <= b < |arr| - 1
    requires forall j :: 0 <= j < |Init(arr)| && Init(arr)[j].id == id ==> b >= 0 && Init(arr)[j].score <= Init(arr)[b].score
    requires b >= 0 ==> Init(arr)[b].score <= arr[c].score
    requires Last(arr).id == id ==> Last(arr).score <= arr[c].score
    ensures forall j :: 0 <= j < |arr| && arr[j].id == id ==> arr[j].score <= arr[c].score
  {
    forall j | 0 <= j < |arr| && arr[j].id == id ensures arr[j].score <= arr[c].score {
      if j == |arr| - 1 {
        assert arr[j] == Last(arr);
      } else {
        assert arr[j] == Init(arr)[j];
      }
    }
  }

  /** When the last track is the kept one, it replaced every earlier
      candidate: it scores strictly higher than the one kept before. */
  lemma BestIndexTake(arr: seq<Track>, id: string)
    requires id in BestMap(arr) && BestIndex(arr, id) == |arr| - 1
    ensures Last(arr).id == id
    ensures id in BestMap(Init(arr)) ==>
              Last(arr).score > BestMap(Init(arr))[id].score && arr[BestIndex(Init(arr), id)] == BestMap(Init(arr))[id]
  {
    if id in BestMap(Init(arr)) {
      assert arr[BestIndex(Init(arr), id)] == Init(arr)[BestIndex(Init(arr), id)];
    }
  }

  /** When the last track is not the kept one, the kept one stands where
      it stood before and scores at least as high as the last. */
  lemma BestIndexKeep(arr: seq<Track>, id: string)
    requires id in BestMap(arr) && BestIndex(arr, id) != |arr| - 1
    ensures id in BestMap(Init(arr))
    ensures BestIndex(arr, id) == BestIndex(Init(arr), id)
    ensures arr[BestIndex(arr, id)] == BestMap(Init(arr))[id]
    ensures Last(arr).id == id ==> Last(arr).score <= BestMap(Init(arr))[id].score
  {
    assert arr[BestIndex(Init(arr), id)] == Init(arr)[BestIndex(Init(arr), id)];
  }

  /** Every earlier track with the id scores strictly lower than the kept
      one: on ties the first stays. */
  lemma {:induction false} BestIndexFirst(arr: seq<Track>, id: string)
    requires id in BestMap(arr)
    ensures forall j :: 0 <= j < BestIndex(arr, id) && arr[j].id == id ==> arr[j].score < arr[BestIndex(arr, id)].score
  {
    var init := Init(arr);
    var m := BestMap(init);
    var t := Last(arr);
    var n := |arr| - 1;
    assert forall j :: 0 <= j < n ==> arr[j] == init[j];
    if HasId(t) && t.id == id && (id !in m || t.score > m[id].score) {
      if id in m {
        BestIndexMax(init, id);
      }
      forall j | 0 <= j < n && arr[j].id == id ensures arr[j].score < t.score {
        IdSetMember(init, j);
      }
    } else {
      BestIndexFirst(init, id);
    }
  }

  /** One track per non-empty id of the input, ids pairwise distinct. */
  lemma DedupKeepBestIds(arr: seq<Track>)
    ensures forall k :: 0 <= k < |DedupKeepBest(arr)| ==> HasId(DedupKeepBest(arr)[k])
    ensures forall i, j :: 0 <= i < j < |DedupKeepBest(arr)| ==> DedupKeepBest(arr)[i].id != DedupKeepBest(arr)[j].id
    ensures forall j :: 0 <= j < |arr| && HasId(arr[j]) ==>
              exists k :: 0 <= k < |DedupKeepBest(arr)| && DedupKeepBest(arr)[k].id == arr[j].id
  {
    var r := DedupKeepBest(arr);
    var order := IdOrder(arr);
    IdOrderProperties(arr);
    assert forall k :: 0 <= k < |r| ==> r[k].id == order[k];
    forall j | 0 <= j < |arr| && HasId(arr[j]) ensures exists k :: 0 <= k < |r| && r[k].id == arr[j].id {
      IdSetMember(arr, j);
      var k :| 0 <= k < |order| && order[k] == arr[j].id;
      assert r[k].id == order[k];
    }
  }

  /** Each kept track occurs in the input, has the highest score among the
      tracks with its id, and every earlier track with its id scores
      strictly lower. */
  lemma DedupKeepBestScores(arr: seq<Track>, k: nat)
    requires k < |DedupKeepBest(arr)|
    ensures exists i :: 0 <= i < |arr| && arr[i] == DedupKeepBest(arr)[k]
              && (forall j :: 0 <= j < |arr| && arr[j].id == arr[i].id ==> arr[j].score <= arr[i].score)
              && (forall j :: 0 <= j < i && arr[j].id == arr[i].id ==> arr[j].score < arr[i].score)
  {
    var id := IdOrder(arr)[k];
    assert DedupKeepBest(arr)[k] == BestMap(arr)[id];
    BestIndexMax(arr, id);
    BestIndexFirst(arr, id);
    var i := BestIndex(arr, id);
    assert arr[i].id == id;
  }

  // ---------------------------------------------------------------------
  // isRecent and scoreTrack

  /** `isRecent(releaseDate)` on the string form of the date. */
  predicate IsRecent(releaseDate: string)
  {
    StartsWith(releaseDate, "2023") || StartsWith(releaseDate, "2024") || StartsWith(releaseDate, "2025")
  }

  lemma DigitsValue4(y: string)
    requires |y| == 4 && forall k :: 0 <= k < 4 ==> IsDigit(y[k])
    ensures DigitsValue(y) == 1000 * DigitOf(y[0]) + 100 * DigitOf(y[1]) + 10 * DigitOf(y[2]) + DigitOf(y[3])
  {
    var y1, y2, y3 := y[..1], y[..2], y[..3];
    assert Init(y1) == [] && Last(y1) == y[0];
    assert DigitsValue(y1) == DigitOf(y[0]);
    assert Init(y2) == y1 && Last(y2) == y[1];
    assert DigitsValue(y2) == 10 * DigitOf(y[0]) + DigitOf(y[1]);
    assert Init(y3) == y2 && Last(y3) == y[2];
    assert DigitsValue(y3) == 100 * DigitOf(y[0]) + 10 * DigitOf(y[1]) + DigitOf(y[2]);
    assert Init(y) == y3 && Last(y) == y[3];
  }

  /** A date is recent exactly when its first four characters are digits
      naming a year from 2023 to 2025. */
  lemma IsRecentYear(d: string)
    ensures IsRecent(d) <==>
              |d| >= 4 && (forall k :: 0 <= k < 4 ==> IsDigit(d[k])) && 2023 <= DigitsValue(d[..4]) <= 2025
  {
    if |d| >= 4 {
      var y := d[..4];
      assert y == [d[0], d[1], d[2], d[3]];
      if forall k :: 0 <= k < 4 ==> IsDigit(d[k]) {
        DigitsValue4(y);
      }
    }
  }

  /** `[ㄱ-ㅎㅏ-ㅣ가-힣]`: Hangul compatibility jamo and Hangul syllables. */
  predicate IsHangul(c: char)
  {
    ('\U{3131}' <= c <= '\U{314E}') || ('\U{314F}' <= c <= '\U{3163}') || ('\U{AC00}' <= c <= '\U{D7A3}')
  }

  /** `hasKorean(text)`. */
  predicate HasKorean(s: string)
  {
    exists i :: 0 <= i < |s| && IsHangul(s[i])
  }

  /** `String(k || "").toLowerCase().trim()`. */
  function Needle(k: string): string
  {
    Trim(Lower(k))
  }

  /** A keyword that adds 10: non-empty and found in the lower-cased title
      or artists. */
  function KeywordHit(titleLower: string, artistsLower: string): string -> bool
  {
    k => Needle(k) != "" && (Contains(titleLower, Needle(k)) || Contains(artistsLower, Needle(k)))
  }

  /** A genre that adds 5: non-empty and found in the lower-cased title or
      album name. */
  function GenreHit(titleLower: string, albumLower: string): string -> bool
  {
    g => Needle(g) != "" && (Contains(titleLower, Needle(g)) || Contains(albumLower, Needle(g)))
  }

  /** The score before the keyword and genre loops. */
  function BaseScore(t: Track): real
  {
    (if HasKorean(t.title) || HasKorean(Join(t.artists, " ")) then 20.0 else 0.0)
    + t.popularity as real * 0.5
    + (if IsRecent(t.releaseDate) then 10.0 else 0.0)
  }

  /** `scoreTrack(t, {keywords, genres})`: 10 per matching keyword and 5 per
      matching genre on top of the base score. */
  function TrackScore(t: Track, keywords: seq<string>, genres: seq<string>): real
  {
    var titleLower := Lower(t.title);
    var artistsLower := Lower(Join(t.artists, " "));
    var albumLower := Lower(t.albumName);
    BaseScore(t)
    + 10.0 * |Filter(keywords, KeywordHit(titleLower, artistsLower))| as real
    + 5.0 * |Filter(genres, GenreHit(titleLower, albumLower))| as real
  }

  /** The loops of `scoreTrack`, accumulating `s`. */
  method ScoreTrack(t: Track, keywords: seq<string>, genres: seq<string>) returns (s: real)
    ensures s == TrackScore(t, keywords, genres)
  {
    var title := t.title;
    var titleLower := Lower(title);
    var artistsStr := Join(t.artists, " ");
    var artistsLower := Lower(artistsStr);
    var albumLower := Lower(t.albumName);
    s := 0.0;
    if HasKorean(title) || HasKorean(artistsStr) {
      s := s + 20.0;
    }
    s := s + t.popularity as real * 0.5;
    if IsRecent(t.releaseDate) {
      s := s + 10.0;
    }
    ghost var base := s;
    for i := 0 to |keywords|
      invariant s == base + 10.0 * |Filter(keywords[..i], KeywordHit(titleLower, artistsLower))| as real
    {
      FilterSnoc(keywords, i, KeywordHit(titleLower, artistsLower));
      var kw := Needle(keywords[i]);
      if kw != "" {
        if Contains(titleLower, kw) || Contains(artistsLower, kw) {
          s := s + 10.0;
        }
      }
    }
    assert keywords[..|keywords|] == keywords;
    ghost var mid := s;
    for i := 0 to |genres|
      invariant s == mid + 5.0 * |Filter(genres[..i], GenreHit(titleLower, albumLower))| as real
    {
      FilterSnoc(genres, i, GenreHit(titleLower, albumLower));
      var gg := Needle(genres[i]);
      if gg != "" {
        if Contains(titleLower, gg) || Contains(albumLower, gg) {
          s := s + 5.0;
        }
      }
    }
    assert genres[..|genres|] == genres;
  }

  /** The score is at least half the popularity and at most that plus 30,
      10 per keyword and 5 per genre. */
  lemma TrackScoreBounds(t: Track, keywords: seq<string>, genres: seq<string>)
    ensures t.popularity as real * 0.5 <= TrackScore(t, keywords, genres)
    ensures TrackScore(t, keywords, genres) <= t.popularity as real * 0.5 + 30.0 + 10.0 * |keywords| as real + 5.0 * |genres| as real
  {
  }

  /** A keyword appended to the list adds exactly 10 when it matches and
      nothing otherwise. */
  lemma TrackScoreKeyword(t: Track, keywords: seq<string>, genres: seq<string>, k: string)
    ensures TrackScore(t, keywords + [k], genres)
         == TrackScore(t, keywords, genres) + (if KeywordHit(Lower(t.title), Lower(Join(t.artists, " ")))(k) then 10.0 else 0.0)
  {
    assert Init(keywords + [k]) == keywords && Last(keywords + [k]) == k;
  }

  /** The score does not read the `score` field. */
  lemma TrackScoreIgnoresScore(t: Track, keywords: seq<string>, genres: seq<string>, x: real)
    ensures TrackScore(t.(score := x), keywords, genres) == TrackScore(t, keywords, genres)
  {
    var u := t.(score := x);
    assert u.title == t.title && u.artists == t.artists && u.albumName == t.albumName;
    assert u.popularity == t.popularity && u.releaseDate == t.releaseDate;
  }

  // ---------------------------------------------------------------------
  // applyArtistCap

  /** `tr?.artists?.[0] || ""`. */
  function MainArtist(t: Track): string
  {
    if t.artists == [] then "" else t.artists[0]
  }

  /** How many tracks of `out` have `a` as main artist. */
  function ArtistCount(out: seq<Track>, a: string): nat
  {
    if out == [] then 0 else ArtistCount(Init(out), a) + (if MainArtist(Last(out)) == a then 1 else 0)
  }

  lemma ArtistCountSnoc(out: seq<Track>, t: Track)
    ensures forall a :: ArtistCount(out + [t], a) == ArtistCount(out, a) + (if MainArtist(t) == a then 1 else 0)
  {
    assert Init(out + [t]) == out && Last(out + [t]) == t;
  }

  /** `Number.isFinite(maxPerArtist) ? maxPerArtist : 0`; `None` stands for
      a value that is not a finite number. */
  function CapOf(maxPerArtist: Option<int>): int
  {
    if maxPerArtist.Some? then maxPerArtist.value else 0
  }

  /** `out` after the first `n` tracks of the capped loop. */
  function Picks(sorted: seq<Track>, n: nat, topK: int, cap: int): seq<Track>
    requires n <= |sorted|
  {
    if n == 0 then []
    else
      var prev := Picks(sorted, n - 1, topK, cap);
      var a := MainArtist(sorted[n - 1]);
      if |prev| >= topK then prev
      else if a == "" || ArtistCount(prev, a) < cap then prev + [sorted[n - 1]]
      else prev
  }

  /** `applyArtistCap(sorted, {topK, maxPerArtist})`. */
  function ArtistCap(sorted: seq<Track>, topK: int, maxPerArtist: Option<int>): seq<Track>
  {
    var cap := CapOf(maxPerArtist);
    if cap <= 0 then Prefix(sorted, topK) else Picks(sorted, |sorted|, topK, cap)
  }

  lemma {:induction false} PicksSaturated(sorted: seq<Track>, i: nat, n: nat, topK: int, cap: int)
    requires i <= n <= |sorted| && |Picks(sorted, i, topK, cap)| >= topK
    ensures Picks(sorted, n, topK, cap) == Picks(sorted, i, topK, cap)
  {
    if n > i {
      PicksSaturated(sorted, i, n - 1, topK, cap);
    }
  }

  /** `counts` holds, per main artist, how many picked tracks have it. */
  ghost predicate CountsMatch(counts: map<string, nat>, out: seq<Track>)
  {
    forall a :: (if a in counts then counts[a] else 0) == ArtistCount(out, a)
  }

  /** The loop of `applyArtistCap` with the `counts` map. */
  method ApplyArtistCap(sorted: seq<Track>, topK: int, maxPerArtist: Option<int>) returns (out: seq<Track>)
    ensures out == ArtistCap(sorted, topK, maxPerArtist)
  {
    var cap := if maxPerArtist.Some? then maxPerArtist.value else 0;
    if cap <= 0 {
      return Prefix(sorted, topK);
    }
    out := [];
    var counts: map<string, nat> := map[];
    var i := 0;
    while i < |sorted|
      invariant i <= |sorted|
      invariant out == Picks(sorted, i, topK, cap)
      invariant CountsMatch(counts, out)
    {
      if |out| >= topK {
        PicksSaturated(sorted, i, |sorted|, topK, cap);
        break;
      }
      out, counts := CapRound(sorted, i, topK, cap, out, counts);
      i := i + 1;
    }
  }

  /** One pass of the loop body of `applyArtistCap`. */
  method CapRound(sorted: seq<Track>, i: nat, topK: int, cap: int, out: seq<Track>, counts: map<string, nat>)
    returns (out': seq<Track>, counts': map<string, nat>)
    requires i < |sorted| && out == Picks(sorted, i, topK, cap) && |out| < topK
    requires CountsMatch(counts, out)
    ensures out' == Picks(sorted, i + 1, topK, cap) && CountsMatch(counts', out')
  {
    var tr := sorted[i];
    var mainArtist := MainArtist(tr);
    var cur := if mainArtist in counts then counts[mainArtist] else 0;
    assert cur == ArtistCount(out, mainArtist);
    out', counts' := out, counts;
    if mainArtist == "" || cur < cap {
      ArtistCountSnoc(out, tr);
      out' := out + [tr];
      counts' := counts[mainArtist := cur + 1];
    }
  }

  /** The loop stops at `topK` tracks, and a negative `topK` picks none. */
  lemma {:induction false} PicksLength(sorted: seq<Track>, n: nat, topK: int, cap: int)
    requires n <= |sorted|
    ensures topK >= 0 ==> |Picks(sorted, n, topK, cap)| <= topK
    ensures topK < 0 ==> Picks(sorted, n, topK, cap) == []
  {
    if n > 0 {
      PicksLength(sorted, n - 1, topK, cap);
    }
  }

  lemma {:induction false} PicksSubseq(sorted: seq<Track>, n: nat, topK: int, cap: int)
    requires n <= |sorted|
    ensures Subseq(Picks(sorted, n, topK, cap), sorted[..n])
  {
    if n > 0 {
      var prev := Picks(sorted, n - 1, topK, cap);
      var t := sorted[n - 1];
      PicksSubseq(sorted, n - 1, topK, cap);
      assert sorted[..n] == sorted[..n - 1] + [t];
      if Picks(sorted, n, topK, cap) == prev {
        SubseqSkip(prev, sorted[..n - 1], t);
      } else {
        SubseqKeep(prev, sorted[..n - 1], t);
      }
    }
  }

  /** No non-empty main artist is picked more often than a positive cap. */
  lemma {:induction false} PicksCap(sorted: seq<Track>, n: nat, topK: int, cap: int, a: string)
    requires n <= |sorted| && cap > 0 && a != ""
    ensures ArtistCount(Picks(sorted, n, topK, cap), a) <= cap
  {
    if n > 0 {
      var prev := Picks(sorted, n - 1, topK, cap);
      PicksCap(sorted, n - 1, topK, cap, a);
      ArtistCountSnoc(prev, sorted[n - 1]);
    }
  }

  /** While fewer than `topK` tracks are picked, a track without a main
      artist, or whose artist is below the cap, is picked: a track is
      dropped only for its artist or the length limit. */
  lemma PicksTakes(sorted: seq<Track>, n: nat, topK: int, cap: int)
    requires n < |sorted|
    requires |Picks(sorted, n, topK, cap)| < topK
    requires MainArtist(sorted[n]) == "" || ArtistCount(Picks(sorted, n, topK, cap), MainArtist(sorted[n])) < cap
    ensures Picks(sorted, n + 1, topK, cap) == Picks(sorted, n, topK, cap) + [sorted[n]]
  {
  }

  /** At most `topK` tracks, in their order in `sorted`; without a positive
      cap, exactly the first `topK`; with one, no main artist more often
      than the cap. */
  lemma ArtistCapProperties(sorted: seq<Track>, topK: int, maxPerArtist: Option<int>)
    ensures topK >= 0 ==> |ArtistCap(sorted, topK, maxPerArtist)| <= topK
    ensures Subseq(ArtistCap(sorted, topK, maxPerArtist), sorted)
    ensures CapOf(maxPerArtist) <= 0 ==> ArtistCap(sorted, topK, maxPerArtist) == Prefix(sorted, topK)
    ensures CapOf(maxPerArtist) > 0 ==>
              forall a :: a != "" ==> ArtistCount(ArtistCap(sorted, topK, maxPerArtist), a) <= CapOf(maxPerArtist)
  {
    var cap := CapOf(maxPerArtist);
    if cap <= 0 {
      SubseqPrefix(sorted, SliceEnd(|sorted|, topK));
    } else {
      PicksLength(sorted, |sorted|, topK, cap);
      PicksSubseq(sorted, |sorted|, topK, cap);
      assert sorted[..|sorted|] == sorted;
      forall a | a != "" ensures ArtistCount(Picks(sorted, |sorted|, topK, cap), a) <= cap {
        PicksCap(sorted, |sorted|, topK, cap, a);
      }
    }
  }

  // ---------------------------------------------------------------------
  // recommendTracks

  /** `[...genres, ...keywords].slice(0, 4).join(" ") || "chill"`. */
  function FallbackQuery(genres: seq<string>, keywords: seq<string>): string
  {
    var j := Join(Prefix(genres + keywords, 4), " ");
    if j != "" then j else "chill"
  }

  /** `uniqStrings([...baseQ, ...moodQ]).slice(0, maxQueries)`. */
  function CleanQueries(searchQueries: seq<string>, mood: string, maxQueries: int): seq<string>
  {
    Prefix(UniqStrings(Filter(searchQueries, NonEmpty) + MoodQueries(mood)), maxQueries)
  }

  /** The search queries of `recommendTracks`. */
  function RecommendQueries(searchQueries: seq<string>, mood: string, genres: seq<string>, keywords: seq<string>,
                            maxQueries: int): seq<string>
  {
    var queries := CleanQueries(searchQueries, mood, maxQueries);
    if queries != [] then queries else [FallbackQuery(genres, keywords)]
  }

  /** There is always at least one query and none is empty; a limit of zero,
      or a cleaned list that leaves nothing, gives exactly the
      fallback. */
  lemma RecommendQueriesFallback(searchQueries: seq<string>, mood: string, genres: seq<string>, keywords: seq<string>,
                                 maxQueries: int)
    ensures var qs := RecommendQueries(searchQueries, mood, genres, keywords, maxQueries);
            && qs != []
            && (forall k :: 0 <= k < |qs| ==> qs[k] != "")
            && (maxQueries == 0 ==> qs == [FallbackQuery(genres, keywords)])
            && (CleanQueries(searchQueries, mood, maxQueries) == [] <==>
                  (qs == [FallbackQuery(genres, keywords)] && CleanQueries(searchQueries, mood, maxQueries) != [FallbackQuery(genres, keywords)]))
  {
    var pool := Filter(searchQueries, NonEmpty) + MoodQueries(mood);
    PrefixUniq(pool, maxQueries);
    assert CleanQueries(searchQueries, mood, maxQueries) == Prefix(UniqStrings(pool), maxQueries);
    FallbackNonEmpty(genres, keywords);
    OrFallback(CleanQueries(searchQueries, mood, maxQueries), FallbackQuery(genres, keywords));
  }

  /** The fallback query is never empty. */
  lemma FallbackNonEmpty(genres: seq<string>, keywords: seq<string>)
    ensures FallbackQuery(genres, keywords) != ""
  {
  }

  /** Choosing the fallback exactly when the cleaned list is empty. */
  lemma OrFallback(queries: seq<string>, fb: string)
    requires fb != "" && forall k :: 0 <= k < |queries| ==> queries[k] != ""
    ensures var qs := if queries != [] then queries else [fb];
            && qs != []
            && (forall k :: 0 <= k < |qs| ==> qs[k] != "")
            && (queries == [] <==> (qs == [fb] && queries != [fb]))
  {
    if queries == [] {
      assert (if queries != [] then queries else [fb]) == [fb];
    } else {
      assert queries != [fb] || fb != "";
    }
  }

  /** At most `maxQueries` queries when the limit is positive, pairwise
      distinct after lower-casing. */
  lemma RecommendQueriesLimit(searchQueries: seq<string>, mood: string, genres: seq<string>, keywords: seq<string>,
                              maxQueries: int)
    ensures var qs := RecommendQueries(searchQueries, mood, genres, keywords, maxQueries);
            && (maxQueries >= 1 ==> |qs| <= maxQueries)
            && (forall i, j :: 0 <= i < j < |qs| ==> Lower(qs[i]) != Lower(qs[j]))
  {
    PrefixUniq(Filter(searchQueries, NonEmpty) + MoodQueries(mood), maxQueries);
  }

  /** The first `n` cleaned strings (all but the last `-n` when `n` is
      negative) are non-empty and pairwise distinct after lower-casing;
      there are none when `n` is zero. */
  lemma PrefixUniq(arr: seq<string>, n: int)
    ensures var p := Prefix(UniqStrings(arr), n);
            && (forall k :: 0 <= k < |p| ==> p[k] != "")
            && (forall i, j :: 0 <= i < j < |p| ==> Lower(p[i]) != Lower(p[j]))
            && (n >= 1 ==> |p| <= n)
            && (n == 0 ==> p == [])
  {
    var u := UniqStrings(arr);
    var p := Prefix(u, n);
    assert p == u[..SliceEnd(|u|, n)];
    forall k | 0 <= k < |p| ensures p[k] != "" {
      UniqStringsClean(arr);
      assert p[k] == u[k];
    }
    forall i, j | 0 <= i < j < |p| ensures Lower(p[i]) != Lower(p[j]) {
      UniqStringsDistinct(arr);
      assert p[i] == u[i] && p[j] == u[j];
    }
  }

  /** The tracks with their scores filled in. */
  function Rescored(ts: seq<Track>, keywords: seq<string>, genres: seq<string>): (r: seq<Track>)
    ensures |r| == |ts|
  {
    seq(|ts|, i requires 0 <= i < |ts| => ts[i].(score := TrackScore(ts[i], keywords, genres)))
  }

  function TrackScoreOf(t: Track): real
  {
    t.score
  }

  /** `merged` of `recommendTracks`. */
  function Merged(searchLists: seq<seq<Track>>, keywords: seq<string>, genres: seq<string>): seq<Track>
  {
    var searchPool := DedupById(Flatten(searchLists));
    DedupKeepBest(Rescored(DedupById(searchPool), keywords, genres))
  }

  /** The result of `recommendTracks` given the result list of each search
      query: deduplicated, scored, sorted by descending score and capped. */
  function RecommendTracks(searchLists: seq<seq<Track>>, keywords: seq<string>, genres: seq<string>,
                           topK: int, maxPerArtist: Option<int>): seq<Track>
  {
    ArtistCap(SortDesc(Merged(searchLists, keywords, genres), TrackScoreOf), topK, maxPerArtist)
  }

  /** Every scored track carries a non-empty id and its own score. */
  lemma RescoredScores(ts: seq<Track>, keywords: seq<string>, genres: seq<string>)
    requires forall k :: 0 <= k < |ts| ==> HasId(ts[k])
    ensures forall k :: 0 <= k < |Rescored(ts, keywords, genres)| ==>
              HasId(Rescored(ts, keywords, genres)[k])
              && Rescored(ts, keywords, genres)[k].score == TrackScore(Rescored(ts, keywords, genres)[k], keywords, genres)
  {
    forall k | 0 <= k < |ts|
      ensures Rescored(ts, keywords, genres)[k].score == TrackScore(Rescored(ts, keywords, genres)[k], keywords, genres)
    {
      TrackScoreIgnoresScore(ts[k], keywords, genres, TrackScore(ts[k], keywords, genres));
    }
  }

  /** Each merged track has a non-empty id and its own score, and merged
      ids are pairwise distinct. */
  lemma MergedProperties(searchLists: seq<seq<Track>>, keywords: seq<string>, genres: seq<string>)
    ensures var merged := Merged(searchLists, keywords, genres);
            && (forall k :: 0 <= k < |merged| ==> HasId(merged[k]) && merged[k].score == TrackScore(merged[k], keywords, genres))
            && (forall i, j :: 0 <= i < j < |merged| ==> merged[i].id != merged[j].id)
  {
    var pool := DedupById(DedupById(Flatten(searchLists)));
    var scored := Rescored(pool, keywords, genres);
    var merged := DedupKeepBest(scored);
    DedupByIdKeys(DedupById(Flatten(searchLists)));
    RescoredScores(pool, keywords, genres);
    DedupKeepBestIds(scored);
    forall k | 0 <= k < |merged| ensures merged[k].score == TrackScore(merged[k], keywords, genres) {
      DedupKeepBestScores(scored, k);
    }
  }

  /** Sorting keeps the ids pairwise distinct and puts scores in
      non-increasing order. */
  lemma SortedMerged(merged: seq<Track>)
    requires forall i, j :: 0 <= i < j < |merged| ==> merged[i].id != merged[j].id
    ensures forall i, j :: 0 <= i < j < |SortDesc(merged, TrackScoreOf)| ==>
              SortDesc(merged, TrackScoreOf)[i].id != SortDesc(merged, TrackScoreOf)[j].id
              && SortDesc(merged, TrackScoreOf)[i].score >= SortDesc(merged, TrackScoreOf)[j].score
    ensures forall k :: 0 <= k < |SortDesc(merged, TrackScoreOf)| ==> SortDesc(merged, TrackScoreOf)[k] in merged
  {
    SortDescProperties(merged, TrackScoreOf);
    var order := SortOrder(KeySeq(merged, TrackScoreOf), |merged|);
    var s := SortDesc(merged, TrackScoreOf);
    forall i, j | 0 <= i < j < |s| ensures s[i].id != s[j].id {
      assert s[i] == merged[order[i]] && s[j] == merged[order[j]] && order[i] != order[j];
      if order[i] > order[j] {
        assert merged[order[j]].id != merged[order[i]].id;
      }
    }
  }

  /** At most `topK` recommended tracks, and no main artist above a
      positive cap. */
  lemma RecommendTracksBounds(searchLists: seq<seq<Track>>, keywords: seq<string>, genres: seq<string>,
                              topK: int, maxPerArtist: Option<int>)
    ensures var out := RecommendTracks(searchLists, keywords, genres, topK, maxPerArtist);
            && (topK >= 0 ==> |out| <= topK)
            && (CapOf(maxPerArtist) > 0 ==> forall a :: a != "" ==> ArtistCount(out, a) <= CapOf(maxPerArtist))
  {
    ArtistCapProperties(SortDesc(Merged(searchLists, keywords, genres), TrackScoreOf), topK, maxPerArtist);
  }

  /** The recommended tracks have pairwise distinct ids and non-increasing
      scores. */
  lemma RecommendTracksOrder(searchLists: seq<seq<Track>>, keywords: seq<string>, genres: seq<string>,
                             topK: int, maxPerArtist: Option<int>)
    ensures var out := RecommendTracks(searchLists, keywords, genres, topK, maxPerArtist);
            forall i, j :: 0 <= i < j < |out| ==> out[i].id != out[j].id && out[i].score >= out[j].score
  {
    var merged := Merged(searchLists, keywords, genres);
    var sorted := SortDesc(merged, TrackScoreOf);
    MergedProperties(searchLists, keywords, genres);
    SortedMerged(merged);
    ArtistCapProperties(sorted, topK, maxPerArtist);
    SubseqPairwise(ArtistCap(sorted, topK, maxPerArtist), sorted, (x: Track, y: Track) => x.id != y.id && x.score >= y.score);
  }

  /** Every recommended track has a non-empty id and its own `scoreTrack`
      as score. */
  lemma RecommendTracksScores(searchLists: seq<seq<Track>>, keywords: seq<string>, genres: seq<string>,
                              topK: int, maxPerArtist: Option<int>)
    ensures var out := RecommendTracks(searchLists, keywords, genres, topK, maxPerArtist);
            forall k :: 0 <= k < |out| ==> HasId(out[k]) && out[k].score == TrackScore(out[k], keywords, genres)
  {
    var sorted := SortDesc(Merged(searchLists, keywords, genres), TrackScoreOf);
    var out := ArtistCap(sorted, topK, maxPerArtist);
    var p := (t: Track) => HasId(t) && t.score == TrackScore(t, keywords, genres);
    SortedScores(searchLists, keywords, genres, p);
    ArtistCapAll(sorted, topK, maxPerArtist, p);
  }

  /** A property of every sorted track holds for every track the cap keeps. */
  lemma ArtistCapAll(sorted: seq<Track>, topK: int, maxPerArtist: Option<int>, p: Track -> bool)
    requires forall k :: 0 <= k < |sorted| ==> p(sorted[k])
    ensures forall k :: 0 <= k < |ArtistCap(sorted, topK, maxPerArtist)| ==> p(ArtistCap(sorted, topK, maxPerArtist)[k])
  {
    var out := ArtistCap(sorted, topK, maxPerArtist);
    ArtistCapProperties(sorted, topK, maxPerArtist);
    SubseqElements(out, sorted);
    ElementsAll(out, sorted, p);
  }

  lemma SortedScores(searchLists: seq<seq<Track>>, keywords: seq<string>, genres: seq<string>, p: Track -> bool)
    requires forall t :: p(t) == (HasId(t) && t.score == TrackScore(t, keywords, genres))
    ensures forall k :: 0 <= k < |SortDesc(Merged(searchLists, keywords, genres), TrackScoreOf)| ==>
              p(SortDesc(Merged(searchLists, keywords, genres), TrackScoreOf)[k])
  {
    var merged := Merged(searchLists, keywords, genres);
    MergedProperties(searchLists, keywords, genres);
    assert forall k :: 0 <= k < |merged| ==> p(merged[k]);
    SortDescMembers(merged, TrackScoreOf);
    ElementsAll(SortDesc(merged, TrackScoreOf), merged, p);
  }

  /** A property of every element of `b` holds for every element of `a`
      when `a` only holds elements of `b`. */
  lemma ElementsAll<T>(a: seq<T>, b: seq<T>, p: T -> bool)
    requires forall x :: x in a ==> x in b
    requires forall k :: 0 <= k < |b| ==> p(b[k])
    ensures forall k :: 0 <= k < |a| ==> p(a[k])
  {
    forall k | 0 <= k < |a| ensures p(a[k]) {
      assert a[k] in b;
      var j :| 0 <= j < |b| && b[j] == a[k];
    }
  }
}
