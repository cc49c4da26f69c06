/** Diary analysis (`src/openai.js`): the diary text sent to the language
    model, the lenient reading of its reply, the normalisation of every
    field with a record of each fallback used, and the search queries built
    from it. The model is a function from the text sent to its reply;
    `JSON.parse` and the number conversions are parameters. */
module OpenAi {
  import opened Wrappers
  import opened Seqs
  import opened Strings
  import opened JsonValues
  import opened Responses

  // ---------------------------------------------------------------------
  // Fallback records (pushFb)

  /** The value a fallback put in place. */
  datatype Used = UsedList(items: seq<string>) | UsedText(text: string) | UsedNumber(n: Option<real>)

  /** `{ field, got, used }`. */
  datatype Fallback = Fallback(field: string, got: Option<Json>, used: Used)

  /** The `fallbacks` array that `normList`, `clamp` and the mood check
      push to. */
  class FallbackLog {
    var entries: seq<Fallback>

    constructor ()
      ensures entries == []
    {
      entries := [];
    }

    /** `pushFb(field, got, used, fallbacks)`: records one fallback and
        returns the value used. */
    method Push(field: string, got: Option<Json>, used: Used) returns (r: Used)
      modifies this
      ensures entries == old(entries) + [Fallback(field, got, used)]
      ensures r == used
    {
      entries := entries + [Fallback(field, got, used)];
      r := used;
    }
  }

  // ---------------------------------------------------------------------
  // normList

  /** `v.map((s) => String(s).trim())`. */
  function TrimmedStrings(xs: seq<Json>, numStr: real -> string): (r: seq<string>)
    ensures |r| == |xs| && forall i :: 0 <= i < |xs| ==> r[i] == Trim(JsString(xs[i], numStr))
  {
    seq(|xs|, i requires 0 <= i < |xs| => Trim(JsString(xs[i], numStr)))
  }

  /** The list `normList` keeps, or `None` when it falls back: `v` is not an
      array, or nothing non-blank is left within the first `max`. */
  function NormalizedList(v: Option<Json>, max: int, numStr: real -> string): Option<seq<string>>
  {
    if !IsArray(v) then None
    else
      var out := Prefix(Filter(TrimmedStrings(v.value.elems, numStr), NonEmpty), max);
      if out != [] then Some(out) else None
  }

  /** What `normList` returns. */
  function ListOr(v: Option<Json>, max: int, fallback: seq<string>, numStr: real -> string): seq<string>
  {
    var n := NormalizedList(v, max, numStr);
    if n.Some? then n.value else fallback
  }

  /** What `normList` records. */
  function ListFallbacks(field: string, v: Option<Json>, max: int, fallback: seq<string>,
                         numStr: real -> string): seq<Fallback>
  {
    if NormalizedList(v, max, numStr).None? then [Fallback(field, v, UsedList(fallback))] else []
  }

  /** `normList(v, max, fallback, field, fallbacks)`. */
  method NormList(v: Option<Json>, max: int, fallback: seq<string>, field: string, log: FallbackLog,
                  numStr: real -> string)
    returns (out: seq<string>)
    modifies log
    ensures out == ListOr(v, max, fallback, numStr)
    ensures log.entries == old(log.entries) + ListFallbacks(field, v, max, fallback, numStr)
  {
    if !IsArray(v) {
      var u := log.Push(field, v, UsedList(fallback));
      return u.items;
    }
    out := Prefix(Filter(TrimmedStrings(v.value.elems, numStr), NonEmpty), max);
    assert NormalizedList(v, max, numStr) == if out != [] then Some(out) else None;
    if |out| == 0 {
      var u := log.Push(field, v, UsedList(fallback));
      out := u.items;
    } else {
      assert log.entries == old(log.entries) + [];
    }
  }

  /** A kept list is non-empty, within a non-negative `max`, and made of
      trimmed, non-blank strings taken in order from the array; a
      non-array always falls back, and an array with a non-blank element
      never does when `max` is positive. */
  lemma NormalizedListProperties(v: Option<Json>, max: int, numStr: real -> string)
    ensures NormalizedList(v, max, numStr).Some? ==>
              var out := NormalizedList(v, max, numStr).value;
              && out != []
              && (max >= 0 ==> |out| <= max)
              && (forall k :: 0 <= k < |out| ==> Trimmed(out[k]))
              && Subseq(out, TrimmedStrings(v.value.elems, numStr))
    ensures !IsArray(v) ==> NormalizedList(v, max, numStr).None?
    ensures IsArray(v) && max > 0 && (exists k :: 0 <= k < |v.value.elems| && Trim(JsString(v.value.elems[k], numStr)) != "") ==>
              NormalizedList(v, max, numStr).Some?
  {
    if IsArray(v) {
      var xs := v.value.elems;
      var out := Prefix(Filter(TrimmedStrings(xs, numStr), NonEmpty), max);
      assert NormalizedList(v, max, numStr) == if out != [] then Some(out) else None;
      KeptShape(xs, max, numStr);
      if max > 0 && exists k :: 0 <= k < |xs| && Trim(JsString(xs[k], numStr)) != "" {
        var k :| 0 <= k < |xs| && Trim(JsString(xs[k], numStr)) != "";
        KeptSome(TrimmedStrings(xs, numStr), k, max);
      }
    }
  }

  /** The shape of the list `normList` keeps from the array `xs`. */
  lemma KeptShape(xs: seq<Json>, max: int, numStr: real -> string)
    ensures var out := Prefix(Filter(TrimmedStrings(xs, numStr), NonEmpty), max);
            && (max >= 0 ==> |out| <= max)
            && (forall k :: 0 <= k < |out| ==> Trimmed(out[k]))
            && Subseq(out, TrimmedStrings(xs, numStr))
  {
    KeptInOrder(xs, max, numStr);
    KeptTrimmed(xs, max, numStr);
  }

  /** A list with a non-blank string keeps something under a positive
      `max`. */
  lemma KeptSome(ts: seq<string>, k: nat, max: int)
    requires k < |ts| && ts[k] != "" && max > 0
    ensures Prefix(Filter(ts, NonEmpty), max) != []
  {
    assert ts[k] in Filter(ts, NonEmpty);
  }

  /** The kept strings are taken in order from the trimmed ones. */
  lemma KeptInOrder(xs: seq<Json>, max: int, numStr: real -> string)
    ensures Subseq(Prefix(Filter(TrimmedStrings(xs, numStr), NonEmpty), max), TrimmedStrings(xs, numStr))
  {
    var ts := TrimmedStrings(xs, numStr);
    var f := Filter(ts, NonEmpty);
    FilterSubseq(ts, NonEmpty);
    SubseqPrefix(f, SliceEnd(|f|, max));
    SubseqTrans(Prefix(f, max), f, ts);
  }

  /** Every kept string is trimmed and non-blank. */
  lemma KeptTrimmed(xs: seq<Json>, max: int, numStr: real -> string)
    ensures var out := Prefix(Filter(TrimmedStrings(xs, numStr), NonEmpty), max);
            forall k :: 0 <= k < |out| ==> Trimmed(out[k])
  {
    var ts := TrimmedStrings(xs, numStr);
    var f := Filter(ts, NonEmpty);
    var out := Prefix(f, max);
    forall k | 0 <= k < |out| ensures Trimmed(out[k]) {
      assert out[k] == f[k];
      var i :| 0 <= i < |ts| && ts[i] == f[k];
      TrimmedOfTrim(JsString(xs[i], numStr));
    }
  }

  // ---------------------------------------------------------------------
  // clamp

  /** The number `clamp` keeps, or `None` when it falls back: `Number(v)`
      when it is finite and within `[lo, hi]`. */
  function InRange(v: Option<Json>, lo: real, hi: real, numOfString: string -> Option<real>,
                   numStr: real -> string): Option<real>
  {
    var n := ToNumber(v, numOfString, numStr);
    if n.Some? && lo <= n.value <= hi then n else None
  }

  /** What `clamp` returns. */
  function NumberOr(v: Option<Json>, lo: real, hi: real, dflt: Option<real>, numOfString: string -> Option<real>,
                    numStr: real -> string): Option<real>
  {
    var n := InRange(v, lo, hi, numOfString, numStr);
    if n.Some? then n else dflt
  }

  /** What `clamp` records. */
  function NumberFallbacks(field: string, v: Option<Json>, lo: real, hi: real, dflt: Option<real>,
                           numOfString: string -> Option<real>, numStr: real -> string): seq<Fallback>
  {
    if InRange(v, lo, hi, numOfString, numStr).None? then [Fallback(field, v, UsedNumber(dflt))] else []
  }

  /** `clamp(v, lo, hi, dflt, field, fallbacks)`; `None` is `null`. */
  method Clamp(v: Option<Json>, lo: real, hi: real, dflt: Option<real>, field: string, log: FallbackLog,
               numOfString: string -> Option<real>, numStr: real -> string)
    returns (r: Option<real>)
    modifies log
    ensures r == NumberOr(v, lo, hi, dflt, numOfString, numStr)
    ensures log.entries == old(log.entries) + NumberFallbacks(field, v, lo, hi, dflt, numOfString, numStr)
  {
    var n := ToNumber(v, numOfString, numStr);
    if n.None? || n.value < lo || n.value > hi {
      var u := log.Push(field, v, UsedNumber(dflt));
      return u.n;
    }
    assert log.entries == old(log.entries) + [];
    r := n;
  }

  /** `clamp` does not move a value to the nearer bound: a number within
      the range is kept as it is, and one outside it, or one that is not
      finite, is replaced by the default. */
  lemma ClampKeepsOrReplaces(v: Option<Json>, lo: real, hi: real, dflt: Option<real>,
                             numOfString: string -> Option<real>, numStr: real -> string)
    ensures var n := ToNumber(v, numOfString, numStr);
            NumberOr(v, lo, hi, dflt, numOfString, numStr) == if n.Some? && lo <= n.value <= hi then n else dflt
    ensures NumberOr(v, lo, hi, dflt, numOfString, numStr).Some? ==>
              NumberOr(v, lo, hi, dflt, numOfString, numStr) == dflt
              || lo <= NumberOr(v, lo, hi, dflt, numOfString, numStr).value <= hi
    ensures v.Some? && v.value.Num? && v.value.n > hi ==> NumberOr(v, lo, hi, dflt, numOfString, numStr) == dflt
  {
  }

  // ---------------------------------------------------------------------
  // extractJsonObject and safeJsonParse

  /** `extractJsonObject(s)`: the outermost braces of a non-empty string. */
  function ExtractJsonObject(s: Option<string>): Option<string>
  {
    if s.None? || s.value == "" then None else BraceSlice(s.value)
  }

  /** The extract is found exactly when some `{` comes before some `}` in
      the text; it is a piece of the text that starts with `{` and ends
      with `}`, with no `{` before it and no `}` after it. */
  lemma ExtractJsonObjectProperties(s: string)
    ensures ExtractJsonObject(Some(s)).Some? <==> exists a, b :: 0 <= a < b < |s| && s[a] == '{' && s[b] == '}'
    ensures ExtractJsonObject(Some(s)).Some? ==>
              var t := ExtractJsonObject(Some(s)).value;
              exists i :: 0 <= i && i + |t| <= |s| && s[i..i + |t|] == t
                && 2 <= |t| && t[0] == '{' && Last(t) == '}'
                && '{' !in s[..i] && '}' !in s[i + |t|..]
  {
    BraceSliceProperties(s);
  }

  /** `safeJsonParse(s)`: nothing for a missing or empty string, else
      `JSON.parse` with a throw read as nothing. */
  function SafeJsonParse(s: Option<string>, parse: string -> Option<Json>): Option<Json>
  {
    if s.None? || s.value == "" then None else parse(s.value)
  }

  /** `a ?? b` over JSON values: `b` when `a` is `null` or `undefined`. */
  function OrElse(a: Option<Json>, b: Option<Json>): Option<Json>
  {
    if a.None? || a.value.Null? then b else a
  }

  // ---------------------------------------------------------------------
  // getOutputText

  /** `getOutputText(resp)`: `output_text` when it is a string, however
      blank, else the gathered text parts. */
  function OutputText(resp: Response): (r: string)
    ensures resp.outputText.Some? ==> r == resp.outputText.value
    ensures resp.outputText.None? ==> r == OutputConcat(resp.output)
  {
    if resp.outputText.Some? then resp.outputText.value else OutputConcat(resp.output)
  }

  /** `getOutputText(resp)`, with its loops. */
  method GetOutputText(resp: Response) returns (r: string)
    ensures r == OutputText(resp)
  {
    if resp.outputText.Some? {
      return resp.outputText.value;
    }
    r := ConcatOutputText(resp.output);
  }

  // ---------------------------------------------------------------------
  // buildFallbackQueries

  /** `buildFallbackQueries({ keywords, genres })`. */
  function BuildFallbackQueries(genres: seq<string>, keywords: seq<string>): seq<string>
  {
    var base := Filter(genres + keywords, NonEmpty);
    Prefix(TrimAll(Filter(GrowingJoins(base), NonEmpty)), 3)
  }

  /** At most three queries, and none when every genre and keyword is
      empty. */
  lemma FallbackQueriesBound(genres: seq<string>, keywords: seq<string>)
    ensures |BuildFallbackQueries(genres, keywords)| <= 3
    ensures Filter(genres + keywords, NonEmpty) == [] ==> BuildFallbackQueries(genres, keywords) == []
  {
    var base := Filter(genres + keywords, NonEmpty);
    if base == [] {
      assert GrowingJoins(base) == ["", "", ""];
      assert Filter(GrowingJoins(base), NonEmpty) == [];
    }
  }

  /** For trimmed genres and keywords, at least one, the queries are
      exactly the joins of the first two, the first three and all of them,
      each trimmed and non-empty. */
  lemma FallbackQueriesShape(genres: seq<string>, keywords: seq<string>)
    requires forall k :: 0 <= k < |genres| ==> Trimmed(genres[k])
    requires forall k :: 0 <= k < |keywords| ==> Trimmed(keywords[k])
    requires genres + keywords != []
    ensures BuildFallbackQueries(genres, keywords) == GrowingJoins(genres + keywords)
    ensures forall k :: 0 <= k < 3 ==> Trimmed(BuildFallbackQueries(genres, keywords)[k])
  {
    var all := genres + keywords;
    assert forall k :: 0 <= k < |all| ==> Trimmed(all[k]);
    FilterAll(all, NonEmpty);
    JoinsTrimmed(all);
  }

  /** The three joins of trimmed strings, at least one, are trimmed and
      survive the filter and the `trim`. */
  lemma JoinsTrimmed(base: seq<string>)
    requires base != [] && forall k :: 0 <= k < |base| ==> Trimmed(base[k])
    ensures Prefix(TrimAll(Filter(GrowingJoins(base), NonEmpty)), 3) == GrowingJoins(base)
    ensures forall k :: 0 <= k < 3 ==> Trimmed(GrowingJoins(base)[k])
  {
    var js := GrowingJoins(base);
    GrowingJoinsTrimmed(base);
    FilterAll(js, NonEmpty);
    forall k | 0 <= k < 3 ensures Trim(js[k]) == js[k] {
      TrimmedOfTrim(js[k]);
    }
    assert TrimAll(js) == js;
    assert Prefix(js, 3) == js;
  }

  // ---------------------------------------------------------------------
  // analyzeDiaryAndBuildSpotify

  /** The analysis, with the fallbacks recorded while building it and the
      search queries. */
  datatype Analysis = Analysis(mood: string, keywords: seq<string>, genres: seq<string>, energy: Option<real>,
                               valence: Option<real>, tempo: Option<real>, market: string, fallbacks: seq<Fallback>)

  /** `{ analysis, searchQueries }`. */
  datatype Diagnosis = Diagnosis(analysis: Analysis, searchQueries: seq<string>)

  /** What the model returns for the text sent: the response and its
      `output_parsed`. */
  datatype ModelReply = ModelReply(resp: Response, outputParsed: Option<Json>)

  /** The number conversions `String(n)` and `Number(s)` uses. */
  datatype Conversions = Conversions(numOfString: string -> Option<real>, numStr: real -> string)

  /** At most this many characters of the diary are sent. */
  const MaxDiaryChars := 2000

  const DefaultKeywords: seq<string> := ["chill", "lofi"]

  /** `resp.output_parsed ?? safeJsonParse(raw) ?? safeJsonParse(extracted)`. */
  function ReplyJson(reply: ModelReply, parse: string -> Option<Json>): Option<Json>
  {
    var raw := OutputText(reply.resp);
    OrElse(reply.outputParsed, OrElse(SafeJsonParse(Some(raw), parse), SafeJsonParse(ExtractJsonObject(Some(raw)), parse)))
  }

  function MoodOr(json: Option<Json>): string
  {
    var m := StringOf(Field(json, "mood"));
    if m.Some? then m.value else "calm"
  }

  function MoodFallbacks(json: Option<Json>): seq<Fallback>
  {
    if StringOf(Field(json, "mood")).None? then [Fallback("mood", Field(json, "mood"), UsedText("calm"))] else []
  }

  /** `typeof json.market === "string" ? json.market.toUpperCase() : "KR"`. */
  function MarketOf(json: Option<Json>): string
  {
    var m := StringOf(Field(json, "market"));
    if m.Some? then Upper(m.value) else "KR"
  }

  /** Every fallback, in the order they are pushed; the one of
      `search_queries` comes last, and is seen by the analysis, which holds
      the same array. */
  function FallbacksOf(json: Option<Json>, conv: Conversions): seq<Fallback>
  {
    MoodFallbacks(json)
    + ListFallbacks("keywords", Field(json, "keywords"), 8, DefaultKeywords, conv.numStr)
    + ListFallbacks("genres", Field(json, "genres"), 3, [], conv.numStr)
    + NumberFallbacks("energy", Field(json, "energy"), 0.0, 1.0, Some(0.5), conv.numOfString, conv.numStr)
    + NumberFallbacks("valence", Field(json, "valence"), 0.0, 1.0, Some(0.5), conv.numOfString, conv.numStr)
    + NumberFallbacks("tempo", Field(json, "tempo"), 60.0, 180.0, None, conv.numOfString, conv.numStr)
    + ListFallbacks("search_queries", Field(json, "search_queries"), 3, [], conv.numStr)
  }

  function AnalysisOf(json: Option<Json>, conv: Conversions): Analysis
  {
    Analysis(MoodOr(json),
             ListOr(Field(json, "keywords"), 8, DefaultKeywords, conv.numStr),
             ListOr(Field(json, "genres"), 3, [], conv.numStr),
             NumberOr(Field(json, "energy"), 0.0, 1.0, Some(0.5), conv.numOfString, conv.numStr),
             NumberOr(Field(json, "valence"), 0.0, 1.0, Some(0.5), conv.numOfString, conv.numStr),
             NumberOr(Field(json, "tempo"), 60.0, 180.0, None, conv.numOfString, conv.numStr),
             MarketOf(json),
             FallbacksOf(json, conv))
  }

  /** `normList(json.search_queries, 3, [], ...).filter(Boolean).slice(0, 3)`,
      or the fallback queries when that is empty. */
  function QueriesOf(json: Option<Json>, conv: Conversions): seq<string>
  {
    var qs := Prefix(Filter(ListOr(Field(json, "search_queries"), 3, [], conv.numStr), NonEmpty), 3);
    if qs != [] then qs
    else BuildFallbackQueries(ListOr(Field(json, "genres"), 3, [], conv.numStr),
                              ListOr(Field(json, "keywords"), 8, DefaultKeywords, conv.numStr))
  }

  /** `analyzeDiaryAndBuildSpotify(text)`, with the model as a function of
      the text sent; an `Err` carries the message thrown. */
  function AnalyzeDiary(text: Option<string>, model: string -> ModelReply, parse: string -> Option<Json>,
                        conv: Conversions): Result<Diagnosis, string>
  {
    if text.None? || Trim(text.value) == "" then Err("Empty diary text")
    else
      var json := ReplyJson(model(Prefix(text.value, MaxDiaryChars)), parse);
      if !IsObjectLike(json) then Err("No JSON parsed")
      else Ok(Diagnosis(AnalysisOf(json, conv), QueriesOf(json, conv)))
  }

  /** The field normalisation of `analyzeDiaryAndBuildSpotify`, pushing to
      a fresh `fallbacks` array. */
  method Normalize(json: Option<Json>, log: FallbackLog, conv: Conversions) returns (a: Analysis, queries: seq<string>)
    requires log.entries == []
    modifies log
    ensures a == AnalysisOf(json, conv)
    ensures queries == QueriesOf(json, conv)
  {
    var mood: string;
    var m := Field(json, "mood");
    if m.Some? && m.value.Str? {
      mood := m.value.s;
    } else {
      var u := log.Push("mood", m, UsedText("calm"));
      mood := u.text;
    }
    assert log.entries == MoodFallbacks(json);
    var keywords := NormList(Field(json, "keywords"), 8, DefaultKeywords, "keywords", log, conv.numStr);
    var genres := NormList(Field(json, "genres"), 3, [], "genres", log, conv.numStr);
    var energy := Clamp(Field(json, "energy"), 0.0, 1.0, Some(0.5), "energy", log, conv.numOfString, conv.numStr);
    var valence := Clamp(Field(json, "valence"), 0.0, 1.0, Some(0.5), "valence", log, conv.numOfString, conv.numStr);
    var tempo := Clamp(Field(json, "tempo"), 60.0, 180.0, None, "tempo", log, conv.numOfString, conv.numStr);
    var market := MarketOf(json);
    var qs := NormList(Field(json, "search_queries"), 3, [], "search_queries", log, conv.numStr);
    qs := Prefix(Filter(qs, NonEmpty), 3);
    a := Analysis(mood, keywords, genres, energy, valence, tempo, market, log.entries);
    if |qs| > 0 {
      queries := qs;
    } else {
      queries := BuildFallbackQueries(genres, keywords);
    }
  }

  /** `analyzeDiaryAndBuildSpotify(text)`. */
  method AnalyzeDiaryAndBuildSpotify(text: Option<string>, model: string -> ModelReply, parse: string -> Option<Json>,
                                     conv: Conversions)
    returns (r: Result<Diagnosis, string>)
    ensures r == AnalyzeDiary(text, model, parse, conv)
  {
    if text.None? || Trim(text.value) == "" {
      return Err("Empty diary text");
    }
    var userText := Prefix(text.value, MaxDiaryChars);
    var reply := model(userText);
    var raw := GetOutputText(reply.resp);
    var extracted := ExtractJsonObject(Some(raw));
    var json := OrElse(reply.outputParsed, OrElse(SafeJsonParse(Some(raw), parse), SafeJsonParse(extracted, parse)));
    if !IsObjectLike(json) {
      return Err("No JSON parsed");
    }
    var log := new FallbackLog();
    var analysis, queries := Normalize(json, log, conv);
    r := Ok(Diagnosis(analysis, queries));
  }

  // ---------------------------------------------------------------------
  // Properties of the analysis

  /** A missing or blank diary is refused before anything is sent; a reply
      that yields no object or array is refused after. */
  lemma AnalyzeDiaryErrors(text: Option<string>, model: string -> ModelReply, parse: string -> Option<Json>,
                           conv: Conversions)
    ensures AnalyzeDiary(text, model, parse, conv) == Err("Empty diary text") <==> text.None? || Trim(text.value) == ""
    ensures AnalyzeDiary(text, model, parse, conv) == Err("No JSON parsed") <==>
              text.Some? && Trim(text.value) != ""
              && !IsObjectLike(ReplyJson(model(Prefix(text.value, MaxDiaryChars)), parse))
  {
  }

  /** Only the first 2000 characters of a non-blank diary reach the
      model. */
  lemma AnalyzeDiaryPrefix(a: string, b: string, model: string -> ModelReply, parse: string -> Option<Json>,
                           conv: Conversions)
    requires Trim(a) != "" && Trim(b) != ""
    requires Prefix(a, MaxDiaryChars) == Prefix(b, MaxDiaryChars)
    ensures AnalyzeDiary(Some(a), model, parse, conv) == AnalyzeDiary(Some(b), model, parse, conv)
  {
  }

  /** The normalised fields: at most 8 keywords and never none, at most 3
      genres, all trimmed and non-blank; energy and valence always
      present and within `[0, 1]`; tempo `null` or within `[60, 180]`;
      the market upper-cased or `"KR"`. */
  lemma AnalysisFields(json: Option<Json>, conv: Conversions)
    ensures var a := AnalysisOf(json, conv);
            && a.keywords != [] && |a.keywords| <= 8
            && (forall k :: 0 <= k < |a.keywords| ==> Trimmed(a.keywords[k]))
            && |a.genres| <= 3
            && (forall k :: 0 <= k < |a.genres| ==> Trimmed(a.genres[k]))
            && a.energy.Some? && 0.0 <= a.energy.value <= 1.0
            && a.valence.Some? && 0.0 <= a.valence.value <= 1.0
            && (a.tempo.None? || 60.0 <= a.tempo.value <= 180.0)
            && a.market == (if StringOf(Field(json, "market")).Some? then Upper(StringOf(Field(json, "market")).value) else "KR")
  {
    NormalizedListProperties(Field(json, "keywords"), 8, conv.numStr);
    NormalizedListProperties(Field(json, "genres"), 3, conv.numStr);
  }

  /** At most seven fallbacks, one per field at most, in field order. */
  lemma FallbacksBound(json: Option<Json>, conv: Conversions)
    ensures |FallbacksOf(json, conv)| <= 7
    ensures forall k :: 0 <= k < |FallbacksOf(json, conv)| ==>
              FallbacksOf(json, conv)[k].field in {"mood", "keywords", "genres", "energy", "valence", "tempo", "search_queries"}
  {
  }

  /** There are always one to three search queries, each trimmed and
      non-blank: the model's own when it gave any, else the fallback
      joins of the genres and keywords. */
  lemma QueriesShape(json: Option<Json>, conv: Conversions)
    ensures var qs := QueriesOf(json, conv);
            && 1 <= |qs| <= 3
            && (forall k :: 0 <= k < |qs| ==> Trimmed(qs[k]))
    ensures NormalizedList(Field(json, "search_queries"), 3, conv.numStr).Some? ==>
              QueriesOf(json, conv) == NormalizedList(Field(json, "search_queries"), 3, conv.numStr).value
  {
    var sq := Field(json, "search_queries");
    NormalizedListProperties(sq, 3, conv.numStr);
    if NormalizedList(sq, 3, conv.numStr).Some? {
      QueriesFromModel(json, conv);
    } else {
      QueriesFromFallback(json, conv);
    }
  }

  /** The model's own queries pass the filter and the slice unchanged. */
  lemma QueriesFromModel(json: Option<Json>, conv: Conversions)
    requires NormalizedList(Field(json, "search_queries"), 3, conv.numStr).Some?
    requires var l := NormalizedList(Field(json, "search_queries"), 3, conv.numStr).value;
             l != [] && |l| <= 3 && forall k :: 0 <= k < |l| ==> Trimmed(l[k])
    ensures QueriesOf(json, conv) == NormalizedList(Field(json, "search_queries"), 3, conv.numStr).value
  {
    var l := NormalizedList(Field(json, "search_queries"), 3, conv.numStr).value;
    assert ListOr(Field(json, "search_queries"), 3, [], conv.numStr) == l;
    KeepShortList(l, 3);
  }

  /** A short list of non-empty strings passes `.filter(Boolean).slice(0, n)`
      unchanged. */
  lemma KeepShortList(l: seq<string>, n: nat)
    requires |l| <= n && forall k :: 0 <= k < |l| ==> Trimmed(l[k])
    ensures Prefix(Filter(l, NonEmpty), n) == l
  {
    assert forall k :: 0 <= k < |l| ==> NonEmpty(l[k]);
    FilterAll(l, NonEmpty);
    assert Prefix(l, n) == l[..|l|] == l;
  }

  /** Without queries from the model, the fallback gives three trimmed
      ones, since the keywords are never empty. */
  lemma QueriesFromFallback(json: Option<Json>, conv: Conversions)
    requires NormalizedList(Field(json, "search_queries"), 3, conv.numStr).None?
    ensures var qs := QueriesOf(json, conv);
            |qs| == 3 && forall k :: 0 <= k < |qs| ==> Trimmed(qs[k])
  {
    assert ListOr(Field(json, "search_queries"), 3, [], conv.numStr) == [];
    var genres := ListOr(Field(json, "genres"), 3, [], conv.numStr);
    var keywords := ListOr(Field(json, "keywords"), 8, DefaultKeywords, conv.numStr);
    AnalysisFields(json, conv);
    FallbackQueriesShape(genres, keywords);
  }
}
