/** Tokenizing liked videos and candidates (`src/tokenize.js`): choosing the
    source table, skipping videos already tokenized, cutting the rest into
    request groups, reading each reply as leniently as possible, aligning
    the reply's items with the group, capping the lists it stores and
    counting the rows written. The language model and the database are
    inputs: the reply to each group and the set of ids already stored. */
module Tokenize {
  import opened Wrappers
  import opened Seqs
  import opened Strings
  import opened JsonValues
  import opened Responses

  // ---------------------------------------------------------------------
  // selectSourceTable

  /** The table read for `kind`; any other kind is an error. */
  function SourceTable(kind: string): (r: Result<string, string>)
    ensures r.Ok? <==> kind == "liked" || kind == "candidate"
    ensures kind == "liked" ==> r == Ok("liked_videos")
    ensures kind == "candidate" ==> r == Ok("candidates")
    ensures r.Err? ==> r.error == "invalid kind"
  {
    if kind == "liked" then Ok("liked_videos")
    else if kind == "candidate" then Ok("candidates")
    else Err("invalid kind")
  }

  /** Only the two allowed tables can be named, and never the same one for
      both kinds. */
  lemma SourceTableClosed(kind: string, other: string)
    ensures SourceTable(kind).Ok? ==> SourceTable(kind).value in {"liked_videos", "candidates"}
    ensures SourceTable(kind).Ok? && SourceTable(other).Ok? && kind != other ==>
              SourceTable(kind).value != SourceTable(other).value
  {
  }

  /** The `step_status` step recorded once a valid kind is done. */
  function StepName(kind: string): (r: string)
    requires SourceTable(kind).Ok?
    ensures r == (if kind == "liked" then "tokenized_likes" else "tokenized_candidates")
  {
    if kind == "liked" then "tokenized_likes" else "tokenized_candidates"
  }

  // ---------------------------------------------------------------------
  // The todo list

  /** A source row; a missing `videoId` is `""`. */
  datatype Row = Row(videoId: string, title: string, channelTitle: string)

  /** `r?.videoId && !existingIds.has(r.videoId)`. */
  function IsTodo(existing: set<string>): Row -> bool
  {
    (r: Row) => r.videoId != "" && r.videoId !in existing
  }

  /** `rows.filter(...)`. */
  function TodoRows(rows: seq<Row>, existing: set<string>): seq<Row>
  {
    Filter(rows, IsTodo(existing))
  }

  /** The todo list keeps, in their order, exactly the rows with a video id
      that is not yet tokenized. */
  lemma TodoRowsProperties(rows: seq<Row>, existing: set<string>)
    ensures Subseq(TodoRows(rows, existing), rows)
    ensures forall k :: 0 <= k < |TodoRows(rows, existing)| ==>
              TodoRows(rows, existing)[k].videoId != "" && TodoRows(rows, existing)[k].videoId !in existing
    ensures forall k :: 0 <= k < |rows| && rows[k].videoId != "" && rows[k].videoId !in existing ==>
              rows[k] in TodoRows(rows, existing)
  {
    FilterSubseq(rows, IsTodo(existing));
  }

  // ---------------------------------------------------------------------
  // Request groups

  /** The options of `tokenizeVideos`. */
  datatype Options = Options(batchSize: int, forceSingleRequest: bool, maxArtists: int, maxKeywords: int)

  /** The defaults: groups of 12, at most 18 artists and 20 keywords. */
  const DefaultOptions := Options(12, false, 18, 20)

  /** `forceSingleRequest ? [todo] : chunk(todo, batchSize)`. */
  function Groups(todo: seq<Row>, opts: Options): seq<seq<Row>>
    requires opts.forceSingleRequest || opts.batchSize > 0
  {
    if opts.forceSingleRequest then [todo] else Chunks(todo, opts.batchSize)
  }

  /** `chunk(todo, batchSize)` by its loop, or the single group. */
  method MakeGroups(todo: seq<Row>, opts: Options) returns (groups: seq<seq<Row>>)
    requires opts.forceSingleRequest || opts.batchSize > 0
    ensures groups == Groups(todo, opts)
  {
    if opts.forceSingleRequest {
      groups := [todo];
    } else {
      groups := ChunkLoop(todo, opts.batchSize);
    }
  }

  /** Every row of every group is a todo row, and the groups together are
      the todo list; without `forceSingleRequest` no group is empty or
      larger than `batchSize`. */
  lemma GroupsProperties(todo: seq<Row>, opts: Options)
    requires opts.forceSingleRequest || opts.batchSize > 0
    ensures Flatten(Groups(todo, opts)) == todo
    ensures forall k, j :: 0 <= k < |Groups(todo, opts)| && 0 <= j < |Groups(todo, opts)[k]| ==>
              Groups(todo, opts)[k][j] in todo
    ensures !opts.forceSingleRequest ==>
              forall k :: 0 <= k < |Groups(todo, opts)| ==> 0 < |Groups(todo, opts)[k]| <= opts.batchSize
  {
    if opts.forceSingleRequest {
      assert Flatten([todo]) == Flatten([]) + todo;
    } else {
      ChunksProperties(todo, opts.batchSize);
      forall k, j | 0 <= k < |Groups(todo, opts)| && 0 <= j < |Groups(todo, opts)[k]|
        ensures Groups(todo, opts)[k][j] in todo
      {
        ChunksMember(todo, opts.batchSize, k, j);
      }
    }
  }

  // ---------------------------------------------------------------------
  // getOutputText

  /** The text `getOutputText` returns: `output_text` when it is a string
      that is not blank, else the gathered text parts, or `null` when those
      are blank too. */
  function OutputTextOrNull(resp: Response): (r: Option<string>)
    ensures r.Some? ==> Trim(r.value) != ""
    ensures resp.outputText.Some? && Trim(resp.outputText.value) != "" ==> r == resp.outputText
    ensures r.None? <==>
              (resp.outputText.None? || Trim(resp.outputText.value) == "") && Trim(OutputConcat(resp.output)) == ""
  {
    if resp.outputText.Some? && Trim(resp.outputText.value) != "" then resp.outputText
    else
      var out := OutputConcat(resp.output);
      if Trim(out) != "" then Some(out) else None
  }

  /** `getOutputText(resp)`, with its loops. */
  method GetOutputText(resp: Response) returns (r: Option<string>)
    ensures r == OutputTextOrNull(resp)
  {
    if resp.outputText.Some? && Trim(resp.outputText.value) != "" {
      return resp.outputText;
    }
    var out := ConcatOutputText(resp.output);
    if Trim(out) != "" {
      r := Some(out);
    } else {
      r := None;
    }
  }

  /** With no usable `output_text` and no text part that adds anything,
      there is no output. */
  lemma NoOutputText(resp: Response)
    requires resp.outputText.None? || Trim(resp.outputText.value) == ""
    requires forall k, j :: 0 <= k < |resp.output| && 0 <= j < |resp.output[k].content| ==>
               PartText(resp.output[k].content[j]) == ""
    ensures OutputTextOrNull(resp).None?
  {
    forall k | 0 <= k < |resp.output| ensures BlockText(resp.output[k].content) == "" {
      BlockTextEmpty(resp.output[k].content);
    }
    OutputConcatEmpty(resp.output);
  }

  // ---------------------------------------------------------------------
  // parseJsonStrict

  /** `s.replace(/```json|```/g, "")`: scanning from the left, at each
      position a `` ```json `` is removed in preference to a bare fence. */
  function StripFences(s: string): string
    decreases |s|
  {
    if StartsWith(s, "```json") then StripFences(s[7..])
    else if StartsWith(s, "```") then StripFences(s[3..])
    else if s == [] then []
    else [s[0]] + StripFences(s[1..])
  }

  /** No fence is left after the replacement. */
  lemma {:induction false} StripFencesClean(s: string)
    ensures !Contains(StripFences(s), "```")
    decreases |s|
  {
    if StartsWith(s, "```json") {
      StripFencesClean(s[7..]);
    } else if StartsWith(s, "```") {
      StripFencesClean(s[3..]);
    } else if s != [] {
      var t := s[1..];
      StripFencesClean(t);
      var r := StripFences(s);
      assert r == [s[0]] + StripFences(t);
      assert r[1..] == StripFences(t);
      if s[0] == '`' {
        assert !StartsWith(t, "``");
        NoDoubleTick(t);
        if |r| >= 3 {
          assert r[1..][..2] == r[1..3];
        }
      }
      assert !StartsWith(r, "```");
    }
  }

  /** A string that does not start with two backticks does not start with
      two after the replacement either. */
  lemma NoDoubleTick(t: string)
    requires !StartsWith(t, "``")
    ensures !StartsWith(StripFences(t), "``")
  {
    if t != [] {
      var r := StripFences(t);
      assert r == [t[0]] + StripFences(t[1..]);
      if t[0] == '`' && |t| > 1 {
        assert t[1] != '`' by {
          assert t[..2] == [t[0], t[1]];
        }
        KeepsHead(t[1..]);
      }
    }
  }

  /** A character other than a backtick at the front stays at the front. */
  lemma KeepsHead(u: string)
    requires u != [] && u[0] != '`'
    ensures StripFences(u) == [u[0]] + StripFences(u[1..])
  {
  }

  /** Text without backticks passes through unchanged in front of whatever
      follows it. */
  lemma {:induction false} StripFencesPlain(x: string, y: string)
    requires '`' !in x
    ensures StripFences(x + y) == x + StripFences(y)
    decreases |x|
  {
    if x != [] {
      assert (x + y)[0] == x[0] && (x + y)[1..] == x[1..] + y;
      StripFencesPlain(x[1..], y);
      KeepsHead(x + y);
      assert StripFences(x + y) == [x[0]] + (x[1..] + StripFences(y));
      assert x == [x[0]] + x[1..];
    } else {
      assert x + y == y;
    }
  }

  /** A reply wrapped in a `` ```json `` code fence is read as its payload
      when the fenced text itself does not parse. */
  lemma ParseFenced(x: string, parse: string -> Option<Json>)
    requires '`' !in x
    requires parse("```json" + x + "```").None? && parse(x).Some?
    ensures ParseJsonStrict(Some("```json" + x + "```"), parse) == parse(x)
  {
    var fenced := "```json" + x + "```";
    assert StartsWith(fenced, "```json");
    assert fenced[7..] == x + "```";
    StripFencesPlain(x, "```");
    assert StartsWith("```", "```") && "```"[3..] == [];
    assert StripFences("```") == [];
    assert StripFences(fenced) == x + [];
    assert x + [] == x;
  }

  /** `parseJsonStrict(raw)` with `JSON.parse` given as `parse` (`None`
      when it throws): the raw text, then the text without fences, then its
      outermost braces; the first that parses wins. */
  function ParseJsonStrict(raw: Option<string>, parse: string -> Option<Json>): (r: Option<Json>)
    ensures raw.None? || raw.value == "" ==> r.None?
    ensures raw.Some? && raw.value != "" && parse(raw.value).Some? ==> r == parse(raw.value)
    ensures raw.Some? && raw.value != "" && parse(raw.value).None? && parse(StripFences(raw.value)).Some? ==>
              r == parse(StripFences(raw.value))
    ensures r.Some? ==>
              r == parse(raw.value) || r == parse(StripFences(raw.value))
              || (BraceSlice(StripFences(raw.value)).Some? && r == parse(BraceSlice(StripFences(raw.value)).value))
    ensures r.None? && raw.Some? && raw.value != "" ==>
              parse(raw.value).None? && parse(StripFences(raw.value)).None?
  {
    if raw.None? || raw.value == "" then None
    else if parse(raw.value).Some? then parse(raw.value)
    else
      var cleaned := StripFences(raw.value);
      if parse(cleaned).Some? then parse(cleaned)
      else
        match BraceSlice(cleaned)
        case Some(b) => parse(b)
        case None => None
  }

  // ---------------------------------------------------------------------
  // Items of a reply

  /** `Array.isArray(parsed?.items) ? parsed.items : Array.isArray(parsed)
      ? parsed : []`. */
  function ItemsOf(parsed: Option<Json>): (items: seq<Json>)
    ensures IsArray(Field(parsed, "items")) ==> items == Field(parsed, "items").value.elems
    ensures !IsArray(Field(parsed, "items")) && IsArray(parsed) ==> items == parsed.value.elems
    ensures !IsArray(Field(parsed, "items")) && !IsArray(parsed) ==> items == []
  {
    if IsArray(Field(parsed, "items")) then Field(parsed, "items").value.elems
    else ElemsOf(parsed)
  }

  /** The `{}` that pads a short reply. */
  const Pad: Json := Obj(map[])

  /** The items lined up with a group of `need` rows: the first `need`,
      padded with `{}` when there are fewer. */
  function Aligned(items: seq<Json>, need: nat): (r: seq<Json>)
    ensures |r| == need
    ensures forall i :: 0 <= i < need && i < |items| ==> r[i] == items[i]
    ensures forall i :: |items| <= i < need ==> r[i] == Pad
  {
    if |items| < need then items + seq(need - |items|, _ => Pad) else items[..need]
  }

  /** The two reassignments of `items`, proved against `Aligned`. */
  method AlignItems(items: seq<Json>, need: nat) returns (aligned: seq<Json>)
    ensures aligned == Aligned(items, need)
  {
    aligned := items;
    if |aligned| < need {
      aligned := aligned + seq(need - |aligned|, _ => Pad);
    }
    if |aligned| > need {
      aligned := aligned[..need];
    }
  }

  // ---------------------------------------------------------------------
  // Storing a group

  /** A `tokens` row: the source type and id and the stored lists (the
      `raw_json` column holds the same two lists). */
  datatype TokenRow = TokenRow(sourceType: string, sourceId: string, artists: seq<Json>, keywords: seq<Json>)

  /** `Array.isArray(v) ? v.slice(0, max) : []`. */
  function CapList(v: Option<Json>, max: int): (r: seq<Json>)
    ensures !IsArray(v) ==> r == []
    ensures IsArray(v) ==> r == Prefix(v.value.elems, max)
  {
    if IsArray(v) then Prefix(v.value.elems, max) else []
  }

  /** The stored list is the leading part of the array, no longer than a
      non-negative cap, and all of it when the cap is at least its
      length. */
  lemma CapListProperties(v: Option<Json>, max: int)
    ensures max >= 0 ==> |CapList(v, max)| <= max
    ensures IsArray(v) ==> |CapList(v, max)| <= |v.value.elems| && CapList(v, max) == v.value.elems[..|CapList(v, max)|]
    ensures IsArray(v) && max >= |v.value.elems| ==> CapList(v, max) == v.value.elems
  {
    if IsArray(v) && max >= |v.value.elems| {
      assert v.value.elems[..|v.value.elems|] == v.value.elems;
    }
  }

  /** The row written for source row `src` and reply item `it`. */
  function ItemRow(kind: string, src: Row, it: Json, opts: Options): TokenRow
  {
    TokenRow(kind, src.videoId, CapList(Field(Some(it), "artists"), opts.maxArtists),
             CapList(Field(Some(it), "keywords"), opts.maxKeywords))
  }

  /** The rows the `forEach` writes: one per item whose source row has a
      video id. */
  function StoredRows(kind: string, group: seq<Row>, items: seq<Json>, opts: Options): seq<TokenRow>
    requires |items| == |group|
  {
    if items == [] then []
    else
      StoredRows(kind, Init(group), Init(items), opts)
      + (if Last(group).videoId != "" then [ItemRow(kind, Last(group), Last(items), opts)] else [])
  }

  /** The transaction's `forEach` with its `stored` counter, proved against
      `StoredRows`. */
  method StoreGroup(kind: string, group: seq<Row>, items: seq<Json>, opts: Options)
    returns (written: seq<TokenRow>, stored: nat)
    requires |items| == |group|
    ensures written == StoredRows(kind, group, items, opts)
    ensures stored == |written|
  {
    written := [];
    stored := 0;
    for idx := 0 to |items|
      invariant written == StoredRows(kind, group[..idx], items[..idx], opts)
      invariant stored == |written|
    {
      var src := group[idx];
      assert Init(group[..idx + 1]) == group[..idx] && Last(group[..idx + 1]) == src;
      assert Init(items[..idx + 1]) == items[..idx] && Last(items[..idx + 1]) == items[idx];
      if src.videoId != "" {
        written := written + [ItemRow(kind, src, items[idx], opts)];
        stored := stored + 1;
      } else {
        assert written + [] == written;
      }
    }
    assert group[..|items|] == group && items[..|items|] == items;
  }

  /** When every row of the group has a video id, one row is written per
      item, in order, for that row's id. */
  lemma {:induction false} StoredRowsAll(kind: string, group: seq<Row>, items: seq<Json>, opts: Options)
    requires |items| == |group|
    requires forall k :: 0 <= k < |group| ==> group[k].videoId != ""
    ensures |StoredRows(kind, group, items, opts)| == |group|
    ensures forall k :: 0 <= k < |group| ==> StoredRows(kind, group, items, opts)[k] == ItemRow(kind, group[k], items[k], opts)
  {
    if items != [] {
      assert forall k :: 0 <= k < |Init(group)| ==> Init(group)[k] == group[k];
      StoredRowsAll(kind, Init(group), Init(items), opts);
      assert forall k :: 0 <= k < |Init(items)| ==> Init(items)[k] == items[k];
    }
  }

  /** Every written row is an `ItemRow` of one of the group's rows with a
      video id. */
  lemma {:induction false} StoredRowsFrom(kind: string, group: seq<Row>, items: seq<Json>, opts: Options)
    requires |items| == |group|
    ensures forall w :: w in StoredRows(kind, group, items, opts) ==>
              exists k :: 0 <= k < |group| && group[k].videoId != "" && w == ItemRow(kind, group[k], items[k], opts)
  {
    if items != [] {
      StoredRowsFrom(kind, Init(group), Init(items), opts);
      assert forall k :: 0 <= k < |Init(group)| ==> Init(group)[k] == group[k] && Init(items)[k] == items[k];
    }
  }

  // ---------------------------------------------------------------------
  // One group

  /** What the language model did with one group's request. */
  datatype Reply = ApiError | Replied(resp: Response)

  /** The rows one group writes: none on an API error, without output text
      or with no items; otherwise the aligned items stored. */
  function GroupWrites(kind: string, group: seq<Row>, reply: Reply, opts: Options,
                       parse: string -> Option<Json>): seq<TokenRow>
  {
    if reply.ApiError? then []
    else
      var raw := OutputTextOrNull(reply.resp);
      if raw.None? then []
      else
        var items := ItemsOf(ParseJsonStrict(raw, parse));
        if items == [] then [] else StoredRows(kind, group, Aligned(items, |group|), opts)
  }

  /** The body of the `for (const group of groups)` loop. */
  method ProcessGroup(kind: string, group: seq<Row>, reply: Reply, opts: Options, parse: string -> Option<Json>)
    returns (written: seq<TokenRow>, stored: nat)
    ensures written == GroupWrites(kind, group, reply, opts, parse)
    ensures stored == |written|
  {
    written, stored := [], 0;
    if reply.ApiError? {
      return;
    }
    var raw := GetOutputText(reply.resp);
    if raw.None? {
      return;
    }
    var parsed := ParseJsonStrict(raw, parse);
    var items := ItemsOf(parsed);
    if |items| == 0 {
      return;
    }
    items := AlignItems(items, |group|);
    written, stored := StoreGroup(kind, group, items, opts);
  }

  /** A group of rows that all have a video id and whose reply has items
      gets exactly one row per video, padded items storing empty lists. */
  lemma GroupWritesAll(kind: string, group: seq<Row>, reply: Reply, opts: Options, parse: string -> Option<Json>)
    requires forall k :: 0 <= k < |group| ==> group[k].videoId != ""
    requires reply.Replied? && OutputTextOrNull(reply.resp).Some?
    requires ItemsOf(ParseJsonStrict(OutputTextOrNull(reply.resp), parse)) != []
    ensures var w := GroupWrites(kind, group, reply, opts, parse);
            var items := ItemsOf(ParseJsonStrict(OutputTextOrNull(reply.resp), parse));
            && |w| == |group|
            && (forall k :: 0 <= k < |group| ==> w[k].sourceId == group[k].videoId)
            && (forall k :: |items| <= k < |group| ==> w[k].artists == [] && w[k].keywords == [])
  {
    var items := ItemsOf(ParseJsonStrict(OutputTextOrNull(reply.resp), parse));
    var aligned := Aligned(items, |group|);
    StoredRowsAll(kind, group, aligned, opts);
    assert forall k :: |items| <= k < |group| ==> Field(Some(aligned[k]), "artists").None?;
  }

  // ---------------------------------------------------------------------
  // tokenizeVideos

  /** `{ skipped, added }`. */
  datatype Summary = Summary(skipped: bool, added: nat)

  /** The reply to the `i`-th group; a missing one stands for an API
      error. */
  function ReplyAt(replies: seq<Reply>, i: nat): Reply
  {
    if i < |replies| then replies[i] else ApiError
  }

  /** The rows written by the first `n` groups. */
  function WritesUpTo(kind: string, groups: seq<seq<Row>>, replies: seq<Reply>, opts: Options,
                      parse: string -> Option<Json>, n: nat): seq<TokenRow>
    requires n <= |groups|
  {
    if n == 0 then []
    else WritesUpTo(kind, groups, replies, opts, parse, n - 1) + GroupWrites(kind, groups[n - 1], ReplyAt(replies, n - 1), opts, parse)
  }

  /** `tokenizeVideos(userId, kind, opts)` given the source rows, the ids
      already tokenized for `kind` and the reply to each group; returns the
      summary (or the error thrown) and the rows written, in order. */
  method TokenizeVideos(kind: string, rows: seq<Row>, existing: set<string>, replies: seq<Reply>,
                        opts: Options, parse: string -> Option<Json>)
    returns (r: Result<Summary, string>, written: seq<TokenRow>)
    requires opts.forceSingleRequest || opts.batchSize > 0
    ensures SourceTable(kind).Err? ==> r == Err("invalid kind") && written == []
    ensures SourceTable(kind).Ok? && TodoRows(rows, existing) == [] ==> r == Ok(Summary(true, 0)) && written == []
    ensures SourceTable(kind).Ok? && TodoRows(rows, existing) != [] ==>
              var groups := Groups(TodoRows(rows, existing), opts);
              && written == WritesUpTo(kind, groups, replies, opts, parse, |groups|)
              && r == Ok(Summary(false, |written|))
  {
    written := [];
    var table := SourceTable(kind);
    if table.Err? {
      return Err(table.error), written;
    }
    var todo := Filter(rows, IsTodo(existing));
    if |todo| == 0 {
      return Ok(Summary(true, 0)), written;
    }
    var groups := MakeGroups(todo, opts);
    var added;
    written, added := RunGroups(kind, groups, replies, opts, parse);
    r := Ok(Summary(false, added));
  }

  /** The `for (const group of groups)` loop with its `added` counter. */
  method RunGroups(kind: string, groups: seq<seq<Row>>, replies: seq<Reply>, opts: Options,
                   parse: string -> Option<Json>)
    returns (written: seq<TokenRow>, added: nat)
    ensures written == WritesUpTo(kind, groups, replies, opts, parse, |groups|)
    ensures added == |written|
  {
    written, added := [], 0;
    for i := 0 to |groups|
      invariant written == WritesUpTo(kind, groups, replies, opts, parse, i)
      invariant added == |written|
    {
      var reply := if i < |replies| then replies[i] else ApiError;
      var w, stored := ProcessGroup(kind, groups[i], reply, opts, parse);
      written := written + w;
      added := added + stored;
    }
  }

  /** The video ids of `rows`. */
  function VideoIds(rows: seq<Row>): set<string>
  {
    set k | 0 <= k < |rows| :: rows[k].videoId
  }

  /** A row written for a video of `todo`, under `kind`, with lists within
      the caps. */
  predicate WellFormed(w: TokenRow, kind: string, todo: seq<Row>, opts: Options)
  {
    && w.sourceType == kind
    && w.sourceId in VideoIds(todo)
    && (opts.maxArtists >= 0 ==> |w.artists| <= opts.maxArtists)
    && (opts.maxKeywords >= 0 ==> |w.keywords| <= opts.maxKeywords)
  }

  /** Every row the first `n` groups write is well formed when the groups
      hold only todo rows. */
  lemma {:induction false} WritesUpToWellFormed(kind: string, todo: seq<Row>, groups: seq<seq<Row>>, replies: seq<Reply>,
                                                opts: Options, parse: string -> Option<Json>, n: nat)
    requires n <= |groups|
    requires forall k, j :: 0 <= k < |groups| && 0 <= j < |groups[k]| ==> groups[k][j] in todo
    ensures forall w :: w in WritesUpTo(kind, groups, replies, opts, parse, n) ==> WellFormed(w, kind, todo, opts)
  {
    if n > 0 {
      WritesUpToWellFormed(kind, todo, groups, replies, opts, parse, n - 1);
      GroupWellFormed(kind, todo, groups[n - 1], ReplyAt(replies, n - 1), opts, parse);
    }
  }

  lemma GroupWellFormed(kind: string, todo: seq<Row>, group: seq<Row>, reply: Reply, opts: Options,
                        parse: string -> Option<Json>)
    requires forall j :: 0 <= j < |group| ==> group[j] in todo
    ensures forall w :: w in GroupWrites(kind, group, reply, opts, parse) ==> WellFormed(w, kind, todo, opts)
  {
    if reply.Replied? && OutputTextOrNull(reply.resp).Some? {
      var items := ItemsOf(ParseJsonStrict(OutputTextOrNull(reply.resp), parse));
      if items != [] {
        var aligned := Aligned(items, |group|);
        StoredRowsFrom(kind, group, aligned, opts);
        forall w | w in StoredRows(kind, group, aligned, opts) ensures WellFormed(w, kind, todo, opts) {
          var k :| 0 <= k < |group| && group[k].videoId != "" && w == ItemRow(kind, group[k], aligned[k], opts);
          CapListProperties(Field(Some(aligned[k]), "artists"), opts.maxArtists);
          CapListProperties(Field(Some(aligned[k]), "keywords"), opts.maxKeywords);
          var t :| 0 <= t < |todo| && todo[t] == group[k];
          assert todo[t].videoId in VideoIds(todo);
        }
      }
    }
  }

  /** Everything `tokenizeVideos` writes is for a video of `rows` that has
      an id and was not yet tokenized, under the right source type and
      within the caps. */
  lemma TokenizeWritesTodo(kind: string, rows: seq<Row>, existing: set<string>, replies: seq<Reply>,
                           opts: Options, parse: string -> Option<Json>)
    requires opts.forceSingleRequest || opts.batchSize > 0
    ensures var todo := TodoRows(rows, existing);
            var groups := Groups(todo, opts);
            forall w :: w in WritesUpTo(kind, groups, replies, opts, parse, |groups|) ==>
              && w.sourceType == kind
              && w.sourceId != "" && w.sourceId !in existing
              && (exists k :: 0 <= k < |rows| && rows[k].videoId == w.sourceId)
              && (opts.maxArtists >= 0 ==> |w.artists| <= opts.maxArtists)
              && (opts.maxKeywords >= 0 ==> |w.keywords| <= opts.maxKeywords)
  {
    var todo := TodoRows(rows, existing);
    var groups := Groups(todo, opts);
    GroupsProperties(todo, opts);
    WritesUpToWellFormed(kind, todo, groups, replies, opts, parse, |groups|);
    forall w | w in WritesUpTo(kind, groups, replies, opts, parse, |groups|)
      ensures w.sourceId != "" && w.sourceId !in existing && exists k :: 0 <= k < |rows| && rows[k].videoId == w.sourceId
    {
      var t :| 0 <= t < |todo| && todo[t].videoId == w.sourceId;
      TodoId(rows, existing, t);
    }
  }

  /** The id of a todo row is a non-empty id of `rows` not yet tokenized. */
  lemma TodoId(rows: seq<Row>, existing: set<string>, t: nat)
    requires t < |TodoRows(rows, existing)|
    ensures var id := TodoRows(rows, existing)[t].videoId;
            id != "" && id !in existing && exists k :: 0 <= k < |rows| && rows[k].videoId == id
  {
    var todo := TodoRows(rows, existing);
    assert todo[t] in rows;
  }
}
