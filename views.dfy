/** The request-level logic of backend/api/views.py: the keyword gate, the
    legacy filter merge and `hasMore` of the search endpoint,
    `format_response`, and the frame sequence `chat_stream_generator`
    emits. The model, the fetch deadline and the narration are inputs. */
module Views {
  import opened Wrappers
  import opened Numbers
  import opened Strings
  import opened Seqs
  import opened Listings
  import opened Results
  import opened CacheService
  import opened Stats
  import opened Search
  import opened AiService

  // ---------------------------------------------------------------------------
  // The keyword gate

  const Keywords: seq<string> :=
    ["apartment", "villa", "rent", "buy", "property", "dubai", "uae", "bed", "price", "area",
     "studio", "townhouse", "penthouse"]

  /** `any(k in q.lower() for k in REAL_ESTATE_KEYWORDS)`. */
  predicate IsRealEstate(q: string)
  {
    exists i :: 0 <= i < |Keywords| && Contains(Lower(q), Keywords[i])
  }

  lemma LowerIdempotent(s: string)
    ensures Lower(Lower(s)) == Lower(s)
  {
  }

  lemma LowerConcat(a: string, b: string)
    ensures Lower(a + b) == Lower(a) + Lower(b)
  {
  }

  /** The gate ignores case. */
  lemma GateIgnoresCase(q: string)
    ensures IsRealEstate(q) <==> IsRealEstate(Lower(q))
  {
    LowerIdempotent(q);
  }

  /** Adding text around a query never closes the gate. */
  lemma GateIsMonotone(a: string, q: string, b: string)
    requires IsRealEstate(q)
    ensures IsRealEstate(a + q + b)
  {
    var i :| 0 <= i < |Keywords| && Contains(Lower(q), Keywords[i]);
    var k := Keywords[i];
    var j :| 0 <= j <= |Lower(q)| - |k| && OccursAt(Lower(q), k, j);
    LowerConcat(a + q, b);
    LowerConcat(a, q);
    var whole := Lower(a + q + b);
    assert whole == Lower(a) + Lower(q) + Lower(b);
    assert whole[|a| + j..|a| + j + |k|] == Lower(q)[j..j + |k|];
    assert OccursAt(whole, k, |a| + j);
  }

  /** A sample query passes the gate. */
  lemma GateSample()
    ensures IsRealEstate("2BR Villa in JBR")
  {
    var lowered := Lower("2BR Villa in JBR");
    assert lowered == "2br villa in jbr";
    assert Keywords[1] == "villa";
    assert OccursAt(lowered, Keywords[1], 4);
  }

  // ---------------------------------------------------------------------------
  // The search endpoint's helpers

  const LegacyKeys: set<string> := {"beds", "maxPrice", "minPrice", "city", "area", "type"}
  const LegacyOrder: seq<string> := ["beds", "maxPrice", "minPrice", "city", "area", "type"]

  /** `for key in [...]: if key in data and key not in filters: filters[key] = data[key]`. */
  method MergeLegacy<V>(data: map<string, V>, filters: map<string, V>) returns (merged: map<string, V>)
    ensures forall k :: k in filters ==> k in merged && merged[k] == filters[k]
    ensures forall k :: k in merged && k !in filters ==> k in LegacyKeys && k in data && merged[k] == data[k]
    ensures forall k :: k in LegacyKeys && k in data ==> k in merged
  {
    merged := filters;
    var i := 0;
    while i < |LegacyOrder|
      invariant 0 <= i <= |LegacyOrder|
      invariant forall k :: k in filters ==> k in merged && merged[k] == filters[k]
      invariant forall k :: k in merged && k !in filters ==> k in LegacyOrder[..i] && k in data && merged[k] == data[k]
      invariant forall k :: k in LegacyOrder[..i] && k in data ==> k in merged
    {
      var key := LegacyOrder[i];
      if key in data && key !in merged {
        merged := merged[key := data[key]];
      }
      assert LegacyOrder[..i + 1] == LegacyOrder[..i] + [key];
      i := i + 1;
    }
    assert LegacyOrder[..i] == LegacyOrder;
    assert forall k :: k in LegacyOrder <==> k in LegacyKeys;
  }

  /** `len(results) == page_size`. */
  predicate HasMore<T>(results: seq<T>, pageSize: int)
  {
    |results| == pageSize
  }

  /** Since a search never returns more than a page, "no more" means a
      short page. */
  lemma HasMoreMeansFullPage(store: seq<Listing>, plan: SearchPlan, pageSize: int, seen: seq<int>, avg: real)
    requires pageSize >= 0
    ensures var rs := QueryResult(store, plan, pageSize, seen, avg).results;
      !HasMore(rs, pageSize) <==> |rs| < pageSize
  {
    ResultsWithinPage(store, plan, pageSize, seen, avg);
  }

  // ---------------------------------------------------------------------------
  // format_response

  /** The placeholders filled from stats, then `{count}`. */
  function FormatResponse(text: string, stats: Option<StatsSnapshot>, count: int): string
  {
    if text == "" then text
    else
      var filled :=
        if stats.Some? then
          var s := stats.value;
          ReplaceAll(ReplaceAll(ReplaceAll(ReplaceAll(text, "{avg_price}", Aed(s.avg)),
                     "{min_price}", Aed(s.min)), "{max_price}", Aed(s.max)), "{area}", s.area)
        else text;
      ReplaceAll(filled, "{count}", IntToString(count))
  }

  lemma IntToStringChars(i: int)
    ensures IntToString(i) != []
    ensures forall c :: c in IntToString(i) ==> IsDigit(c) || c == '-'
  {
    var s := IntToString(i);
    forall c | c in s
      ensures IsDigit(c) || c == '-'
    {
      var j :| 0 <= j < |s| && s[j] == c;
      if i < 0 {
        if j > 0 {
          assert s[j] == NatToString(-i)[j - 1];
        }
      }
    }
  }

  /** A non-empty text comes back with every `{count}` filled in, and an
      empty one comes back as it is. */
  lemma FormatFillsCount(text: string, stats: Option<StatsSnapshot>, count: int)
    ensures text != "" ==> !Contains(FormatResponse(text, stats, count), "{count}")
    ensures text == "" ==> FormatResponse(text, stats, count) == ""
  {
    if text != "" {
      IntToStringChars(count);
      var filled :=
        if stats.Some? then
          var s := stats.value;
          ReplaceAll(ReplaceAll(ReplaceAll(ReplaceAll(text, "{avg_price}", Aed(s.avg)),
                     "{min_price}", Aed(s.min)), "{max_price}", Aed(s.max)), "{area}", s.area)
        else text;
      ReplaceAllRemoves(filled, "{count}", IntToString(count));
    }
  }

  // ---------------------------------------------------------------------------
  // chat_stream_generator

  /** `tableData` with its `tableTitle`. */
  datatype TableBlock = TableBlock(title: string, rows: seq<seq<string>>)

  /** One `data: {...}` event of the stream. */
  datatype Frame =
    | ErrorFrame(response: string)
    | TextChunk(content: string)
    | IntentFrame(filters: Filter)
    | ResultsFrame(results: seq<ResultItem>, isFallback: bool)
    | StatsFrame(stats: Option<StatsSnapshot>, response: string, table: TableBlock)
    | FinalFrame(summary: Option<TableBlock>)

  /** The database step of a search: its outcome, or the error raised while
      waiting for it (the 7-second deadline among them). */
  datatype Fetch = Fetched(outcome: SearchOutcome) | FetchFailed(message: string)

  const StatsTableTitle: string := "Market Comparison Matrix"
  const SearchTableTitle: string := "Property Summary:"
  const PageSizeOfChat: int := 10

  function StatsRow(name: string, avg: real, min: real, max: real): seq<string>
  {
    [name, Aed(avg), Aed(min), Aed(max)]
  }

  /** One row per breakdown city, or one row for the selected area. */
  function StatsTableRows(stats: Option<StatsSnapshot>): seq<seq<string>>
  {
    match stats
    case None => []
    case Some(s) =>
      var bd := s.cityBreakdown.GetOr([]);
      if bd != [] then seq(|bd|, i requires 0 <= i < |bd| => StatsRow(bd[i].name, bd[i].avg, bd[i].min, bd[i].max))
      else [StatsRow(s.area, s.avg, s.min, s.max)]
  }

  method BuildStatsTable(stats: Option<StatsSnapshot>) returns (rows: seq<seq<string>>)
    ensures rows == StatsTableRows(stats)
  {
    rows := [];
    if stats.Some? {
      var s := stats.value;
      var bd := if s.cityBreakdown.Some? then s.cityBreakdown.value else [];
      if bd != [] {
        var i := 0;
        while i < |bd|
          invariant 0 <= i <= |bd|
          invariant |rows| == i
          invariant forall j :: 0 <= j < i ==> rows[j] == StatsRow(bd[j].name, bd[j].avg, bd[j].min, bd[j].max)
        {
          rows := rows + [StatsRow(bd[i].name, bd[i].avg, bd[i].min, bd[i].max)];
          i := i + 1;
        }
        ghost var want := seq(|bd|, i requires 0 <= i < |bd| => StatsRow(bd[i].name, bd[i].avg, bd[i].min, bd[i].max));
        assert rows == want;
      } else {
        rows := [StatsRow(s.area, s.avg, s.min, s.max)];
      }
    }
  }

  /** The stats table is empty without stats, has one row per breakdown
      city when there is a breakdown, and a single row otherwise. */
  lemma StatsTableShape(stats: Option<StatsSnapshot>)
    ensures stats.None? ==> StatsTableRows(stats) == []
    ensures stats.Some? && stats.value.cityBreakdown.Some? && stats.value.cityBreakdown.value != [] ==>
      |StatsTableRows(stats)| == |stats.value.cityBreakdown.value|
      && forall i :: 0 <= i < |StatsTableRows(stats)| ==> StatsTableRows(stats)[i][0] == stats.value.cityBreakdown.value[i].name
    ensures stats.Some? && (stats.value.cityBreakdown.None? || stats.value.cityBreakdown.value == []) ==>
      StatsTableRows(stats) == [StatsRow(stats.value.area, stats.value.avg, stats.value.min, stats.value.max)]
  {
  }

  /** `[beds, f"{int(price):,}", location[:30], title[:40] + '...']`. */
  function SearchRow(r: ResultItem): seq<string>
  {
    [BedsText(r.beds), WithThousands(Trunc(r.price)), Take(r.location, 30), Take(r.title, 40) + "..."]
  }

  function SearchTableRows(wantsTable: bool, results: seq<ResultItem>): seq<seq<string>>
  {
    if wantsTable && results != [] then
      var top := Take(results, 10);
      seq(|top|, i requires 0 <= i < |top| => SearchRow(top[i]))
    else []
  }

  method BuildSearchTable(wantsTable: bool, results: seq<ResultItem>) returns (rows: seq<seq<string>>)
    ensures rows == SearchTableRows(wantsTable, results)
  {
    rows := [];
    if wantsTable && results != [] {
      var top := Take(results, 10);
      var i := 0;
      while i < |top|
        invariant 0 <= i <= |top|
        invariant |rows| == i
        invariant forall j :: 0 <= j < i ==> rows[j] == SearchRow(top[j])
      {
        rows := rows + [SearchRow(top[i])];
        i := i + 1;
      }
    }
  }

  /** The summary table has rows exactly when a table was asked for and
      there are results, one per leading result up to ten: the bedrooms
      text, the truncated price with thousands separators, the first 30
      characters of the location and the first 40 of the title plus "...". */
  lemma SearchTableShape(wantsTable: bool, results: seq<ResultItem>)
    ensures var rows := SearchTableRows(wantsTable, results);
      && (rows != [] <==> wantsTable && results != [])
      && (rows != [] ==> |rows| == if |results| < 10 then |results| else 10)
      && forall i :: 0 <= i < |rows| ==>
           var loc, title := results[i].location, results[i].title;
           && |rows[i]| == 4
           && rows[i][0] == BedsText(results[i].beds)
           && rows[i][1] == WithThousands(Trunc(results[i].price))
           && |rows[i][2]| == (if |loc| < 30 then |loc| else 30) && StartsWith(loc, rows[i][2])
           && |rows[i][3]| == 3 + (if |title| < 40 then |title| else 40)
           && EndsWith(rows[i][3], "...")
           && StartsWith(title, rows[i][3][..|rows[i][3]| - 3])
  {
    var rows := SearchTableRows(wantsTable, results);
    forall i | 0 <= i < |rows|
      ensures StartsWith(results[i].location, rows[i][2])
      ensures EndsWith(rows[i][3], "...")
      ensures StartsWith(results[i].title, rows[i][3][..|rows[i][3]| - 3])
    {
      var t := Take(results[i].title, 40);
      assert rows[i][3] == t + "...";
      assert (t + "...")[|t|..] == "...";
      assert (t + "...")[..|t|] == t;
    }
  }

  /** The relayed narration. */
  function ChunkFrames(chunks: seq<string>): (fs: seq<Frame>)
    ensures |fs| == |chunks|
    ensures forall i :: 0 <= i < |chunks| ==> fs[i] == TextChunk(chunks[i])
  {
    seq(|chunks|, i requires 0 <= i < |chunks| => TextChunk(chunks[i]))
  }

  /** `for chunk in narrative_gen: yield ...`. */
  method RelayChunks(chunks: seq<string>) returns (fs: seq<Frame>)
    ensures fs == ChunkFrames(chunks)
  {
    fs := [];
    var i := 0;
    while i < |chunks|
      invariant 0 <= i <= |chunks|
      invariant |fs| == i
      invariant forall j :: 0 <= j < i ==> fs[j] == TextChunk(chunks[j])
    {
      fs := fs + [TextChunk(chunks[i])];
      i := i + 1;
    }
  }

  /** The greeting relayed before any data. */
  function Greeting(ai: AiPlan): seq<Frame>
  {
    if ai.response != "" then [TextChunk(ai.response + " ")] else []
  }

  predicate IsConversational(ai: AiPlan)
  {
    ai.kind == "info" || ai.kind == "clarification"
  }

  /** The frames after the `intent` frame of a search. */
  function SearchTail(ai: AiPlan, ctx: SessionContext, fetch: Fetch, narration: Narration): seq<Frame>
  {
    match fetch
    case FetchFailed(msg) => [ErrorFrame("System Speed Error: " + msg)]
    case Fetched(out) =>
      [ResultsFrame(out.results, out.isFallback)]
      + ChunkFrames(NarrativeChunks(narration, ctx, out.results, ai.searchPlan.primary))
      + [FinalFrame(Some(TableBlock(SearchTableTitle, SearchTableRows(ai.wantsTable, out.results))))]
  }

  /** The frames `chat_stream_generator` yields for the intent `ai`, the
      stats of the primary city and area, the stats narration, the search
      fetch, and the narration of the results. */
  function ChatFrames(ai: AiPlan, ctx: SessionContext, stats: Option<StatsSnapshot>, statsReply: Reply<string>,
                      fetch: Fetch, narration: Narration): seq<Frame>
  {
    if ai.kind == "error" then [ErrorFrame(ai.response)]
    else if IsConversational(ai) then Greeting(ai) + [FinalFrame(None)]
    else if ai.kind == "stats" then
      Greeting(ai)
      + [StatsFrame(stats, StatsNarrative(statsReply, stats, ctx), TableBlock(StatsTableTitle, StatsTableRows(stats))),
         FinalFrame(None)]
    else Greeting(ai) + [IntentFrame(ai.searchPlan.primary)] + SearchTail(ai, ctx, fetch, narration)
  }

  /** The search fetch: the outcome of `query_properties` with a page of ten
      and the session's seen ids, unless waiting for it failed. */
  function FetchOf(failure: Option<string>, store: seq<Listing>, plan: SearchPlan, seen: seq<int>, avg: real): Fetch
  {
    if failure.Some? then FetchFailed(failure.value)
    else Fetched(QueryResult(store, plan, PageSizeOfChat, seen, avg))
  }

  /** Whether a request reads the market stats of its primary filter. */
  predicate ReadsStats(ai: AiPlan, failure: Option<string>)
  {
    ai.kind != "error" && !IsConversational(ai) && (ai.kind == "stats" || failure.None?)
  }

  /** The `stats` branch: the stats of the primary filter, narrated and
      tabulated. */
  method StreamStats(cache: SimpleCache<StatsSnapshot>, store: seq<Listing>, p: Filter, ctx: SessionContext,
                     statsReply: Reply<string>, now: real)
    returns (f: Frame)
    modifies cache
    ensures var stats := StatsThroughCache(old(cache.data), store, p.city, p.area, now);
      f == StatsFrame(stats, StatsNarrative(statsReply, stats, ctx), TableBlock(StatsTableTitle, StatsTableRows(stats)))
    ensures cache.data == StatsCacheAfter(old(cache.data), store, p.city, p.area, now)
  {
    var stats := GetPropertyStats(cache, store, p.city, p.area, now);
    var narrative := StatsNarrative(statsReply, stats, ctx);
    var rows := BuildStatsTable(stats);
    f := StatsFrame(stats, narrative, TableBlock(StatsTableTitle, rows));
  }

  /** The frames after `intent` when the search returned in time. */
  method StreamSearch(cache: SimpleCache<StatsSnapshot>, store: seq<Listing>, ai: AiPlan, ctx: SessionContext,
                      narration: Narration, now: real)
    returns (tail: seq<Frame>)
    modifies cache
    ensures var p := ai.searchPlan.primary;
      tail == SearchTail(ai, ctx, Fetched(QueryResult(store, ai.searchPlan, PageSizeOfChat, ctx.seenIds,
                                            AvgOf(StatsThroughCache(old(cache.data), store, p.city, p.area, now)))),
                         narration)
    ensures var p := ai.searchPlan.primary;
      cache.data == StatsCacheAfter(old(cache.data), store, p.city, p.area, now)
  {
    var out := QueryProperties(cache, store, ai.searchPlan, ctx.page.GetOr(1), PageSizeOfChat, ctx.seenIds, now);
    var chunks := NarrativeChunks(narration, ctx, out.results, ai.searchPlan.primary);
    var relayed := RelayChunks(chunks);
    var rows := BuildSearchTable(ai.wantsTable, out.results);
    tail := [ResultsFrame(out.results, out.isFallback)] + relayed + [FinalFrame(Some(TableBlock(SearchTableTitle, rows)))];
  }

  /** The generator, step by step. `failure` is the error raised while
      waiting for the search (the search's own effect is then not
      modelled); `aiReply`, `statsReply` and `narration` are the model's
      answers. */
  method ChatStreamGenerator(cache: SimpleCache<StatsSnapshot>, store: seq<Listing>, ctx: SessionContext,
                             aiReply: Reply<AiPlan>, statsReply: Reply<string>, failure: Option<string>,
                             narration: Narration, now: real)
    returns (frames: seq<Frame>)
    modifies cache
    ensures var ai := GetAiIntent(aiReply);
      var p := ai.searchPlan.primary;
      var stats := StatsThroughCache(old(cache.data), store, p.city, p.area, now);
      frames == ChatFrames(ai, ctx, stats, statsReply, FetchOf(failure, store, ai.searchPlan, ctx.seenIds, AvgOf(stats)), narration)
    ensures var ai := GetAiIntent(aiReply);
      var p := ai.searchPlan.primary;
      cache.data == if ReadsStats(ai, failure) then StatsCacheAfter(old(cache.data), store, p.city, p.area, now)
                    else old(cache.data)
  {
    var ai := GetAiIntent(aiReply);
    var p := ai.searchPlan.primary;
    ghost var stats := StatsThroughCache(cache.data, store, p.city, p.area, now);
    ghost var fetch := FetchOf(failure, store, ai.searchPlan, ctx.seenIds, AvgOf(stats));
    if ai.kind == "error" {
      frames := [ErrorFrame(ai.response)];
      assert frames == ChatFrames(ai, ctx, stats, statsReply, fetch, narration);
      return;
    }
    var greet := [];
    if ai.response != "" {
      greet := [TextChunk(ai.response + " ")];
    }
    assert greet == Greeting(ai);
    if IsConversational(ai) {
      frames := greet + [FinalFrame(None)];
      assert frames == ChatFrames(ai, ctx, stats, statsReply, fetch, narration);
      return;
    }
    if ai.kind == "stats" {
      var f := StreamStats(cache, store, p, ctx, statsReply, now);
      frames := greet + [f, FinalFrame(None)];
      assert frames == ChatFrames(ai, ctx, stats, statsReply, fetch, narration);
      return;
    }
    if failure.Some? {
      frames := greet + [IntentFrame(p), ErrorFrame("System Speed Error: " + failure.value)];
      assert fetch == FetchFailed(failure.value);
      assert frames == greet + [IntentFrame(p)] + SearchTail(ai, ctx, fetch, narration);
      return;
    }
    var tail := StreamSearch(cache, store, ai, ctx, narration, now);
    assert tail == SearchTail(ai, ctx, fetch, narration);
    frames := greet + [IntentFrame(p)] + tail;
  }

  // ---------------------------------------------------------------------------
  // Properties of the frame sequence

  predicate IsTerminal(f: Frame)
  {
    f.ErrorFrame? || f.FinalFrame?
  }

  /** Every stream ends with exactly one terminal frame, `final` or `error`. */
  lemma OneTerminalFrameLast(ai: AiPlan, ctx: SessionContext, stats: Option<StatsSnapshot>, statsReply: Reply<string>,
                             fetch: Fetch, narration: Narration)
    ensures var fs := ChatFrames(ai, ctx, stats, statsReply, fetch, narration);
      && fs != []
      && IsTerminal(fs[|fs| - 1])
      && forall i :: 0 <= i < |fs| - 1 ==> !IsTerminal(fs[i])
  {
  }

  /** An `error` intent is a stream of exactly one error frame. */
  lemma ErrorIntentIsOneFrame(aiReply: Reply<AiPlan>, ctx: SessionContext, stats: Option<StatsSnapshot>,
                              statsReply: Reply<string>, fetch: Fetch, narration: Narration)
    requires aiReply.NoClient? || aiReply.Raised? || aiReply.value.kind == "error"
    ensures ChatFrames(GetAiIntent(aiReply), ctx, stats, statsReply, fetch, narration)
         == [ErrorFrame(GetAiIntent(aiReply).response)]
  {
  }

  /** Any other intent with a response opens with that response as a text chunk. */
  lemma GreetingComesFirst(ai: AiPlan, ctx: SessionContext, stats: Option<StatsSnapshot>, statsReply: Reply<string>,
                           fetch: Fetch, narration: Narration)
    requires ai.kind != "error" && ai.response != ""
    ensures ChatFrames(ai, ctx, stats, statsReply, fetch, narration)[0] == TextChunk(ai.response + " ")
  {
  }

  /** `info` and `clarification` end with a bare `final` and never search. */
  lemma ConversationalNeverSearches(ai: AiPlan, ctx: SessionContext, stats: Option<StatsSnapshot>,
                                    statsReply: Reply<string>, fetch: Fetch, narration: Narration)
    requires IsConversational(ai)
    ensures var fs := ChatFrames(ai, ctx, stats, statsReply, fetch, narration);
      && fs[|fs| - 1] == FinalFrame(None)
      && |fs| <= 2
      && forall i :: 0 <= i < |fs| ==> !fs[i].IntentFrame? && !fs[i].ResultsFrame? && !fs[i].StatsFrame?
  {
  }

  /** A `stats` intent is one `stats` frame, carrying the narration and the
      comparison table, followed by a bare `final`. */
  lemma StatsStream(ai: AiPlan, ctx: SessionContext, stats: Option<StatsSnapshot>, statsReply: Reply<string>,
                    fetch: Fetch, narration: Narration)
    requires ai.kind == "stats"
    ensures var fs := ChatFrames(ai, ctx, stats, statsReply, fetch, narration);
      && |fs| >= 2
      && fs[|fs| - 1] == FinalFrame(None)
      && fs[|fs| - 2] == StatsFrame(stats, StatsNarrative(statsReply, stats, ctx),
                                     TableBlock(StatsTableTitle, StatsTableRows(stats)))
      && forall i :: 0 <= i < |fs| - 2 ==> fs[i].TextChunk?
  {
  }

  /** A successful search: the `intent` frame, then the `results` frame,
      then the narration chunks in order, then `final` with the summary
      table. */
  lemma SearchStreamOrder(ai: AiPlan, ctx: SessionContext, stats: Option<StatsSnapshot>, statsReply: Reply<string>,
                          out: SearchOutcome, narration: Narration)
    requires ai.kind != "error" && !IsConversational(ai) && ai.kind != "stats"
    ensures var fs := ChatFrames(ai, ctx, stats, statsReply, Fetched(out), narration);
      var g := |Greeting(ai)|;
      var cs := NarrativeChunks(narration, ctx, out.results, ai.searchPlan.primary);
      && |fs| == g + 3 + |cs|
      && fs[g] == IntentFrame(ai.searchPlan.primary)
      && fs[g + 1] == ResultsFrame(out.results, out.isFallback)
      && (forall i :: 0 <= i < |cs| ==> fs[g + 2 + i] == TextChunk(cs[i]))
      && fs[|fs| - 1] == FinalFrame(Some(TableBlock(SearchTableTitle, SearchTableRows(ai.wantsTable, out.results))))
  {
    var fs := ChatFrames(ai, ctx, stats, statsReply, Fetched(out), narration);
    var cs := NarrativeChunks(narration, ctx, out.results, ai.searchPlan.primary);
    var head := Greeting(ai) + [IntentFrame(ai.searchPlan.primary)];
    var mid := [ResultsFrame(out.results, out.isFallback)] + ChunkFrames(cs);
    var last := FinalFrame(Some(TableBlock(SearchTableTitle, SearchTableRows(ai.wantsTable, out.results))));
    assert SearchTail(ai, ctx, Fetched(out), narration) == mid + [last];
    assert fs == head + (mid + [last]);
    var g := |Greeting(ai)|;
    assert |head| == g + 1;
    assert fs[g] == head[g];
    forall i | 0 <= i < |cs|
      ensures fs[g + 2 + i] == TextChunk(cs[i])
    {
      assert fs[g + 2 + i] == mid[1 + i];
    }
  }

  /** When the search fails, the `intent` frame is followed by a single
      error frame, and no `final` is sent. */
  lemma FailedSearchHasNoFinal(ai: AiPlan, ctx: SessionContext, stats: Option<StatsSnapshot>, statsReply: Reply<string>,
                               msg: string, narration: Narration)
    requires ai.kind != "error" && !IsConversational(ai) && ai.kind != "stats"
    ensures var fs := ChatFrames(ai, ctx, stats, statsReply, FetchFailed(msg), narration);
      && |fs| >= 2
      && fs[|fs| - 2] == IntentFrame(ai.searchPlan.primary)
      && fs[|fs| - 1] == ErrorFrame("System Speed Error: " + msg)
      && forall i :: 0 <= i < |fs| ==> !fs[i].FinalFrame?
  {
  }

  /** The only `results` frame of a stream carries the fetched outcome. */
  lemma ResultsFrameIsTheFetch(ai: AiPlan, ctx: SessionContext, stats: Option<StatsSnapshot>, statsReply: Reply<string>,
                               fetch: Fetch, narration: Narration)
    ensures var fs := ChatFrames(ai, ctx, stats, statsReply, fetch, narration);
      forall i :: 0 <= i < |fs| && fs[i].ResultsFrame? ==>
        fetch.Fetched? && fs[i] == ResultsFrame(fetch.outcome.results, fetch.outcome.isFallback)
  {
    var fs := ChatFrames(ai, ctx, stats, statsReply, fetch, narration);
    var g := Greeting(ai);
    forall i | 0 <= i < |fs|
      ensures fs[i].ResultsFrame? ==> fetch.Fetched? && fs[i] == ResultsFrame(fetch.outcome.results, fetch.outcome.isFallback)
    {
      if ai.kind == "error" {
      } else if i < |g| {
        assert fs[i] == g[i];
      } else if ai.kind != "stats" && !IsConversational(ai) {
        var head := g + [IntentFrame(ai.searchPlan.primary)];
        var tail := SearchTail(ai, ctx, fetch, narration);
        assert fs == head + tail;
        if i < |head| {
          assert fs[i] == head[i];
        } else {
          assert fs[i] == tail[i - |head|];
          if fetch.Fetched? {
            var out := fetch.outcome;
            var cs := NarrativeChunks(narration, ctx, out.results, ai.searchPlan.primary);
            var mid := [ResultsFrame(out.results, out.isFallback)] + ChunkFrames(cs);
            var last := FinalFrame(Some(TableBlock(SearchTableTitle, SearchTableRows(ai.wantsTable, out.results))));
            assert tail == mid + [last];
            var k := i - |head|;
            if 0 < k < |mid| {
              assert tail[k] == ChunkFrames(cs)[k - 1];
            }
          }
        }
      }
    }
  }

  /** The results a chat search streams never include a seen id and fit
      in a page of ten. */
  lemma StreamedResultsAreNew(store: seq<Listing>, ai: AiPlan, ctx: SessionContext, stats: Option<StatsSnapshot>,
                              statsReply: Reply<string>, narration: Narration, avg: real)
    ensures var fs := ChatFrames(ai, ctx, stats, statsReply, FetchOf(None, store, ai.searchPlan, ctx.seenIds, avg), narration);
      forall i :: 0 <= i < |fs| && fs[i].ResultsFrame? ==>
        |fs[i].results| <= PageSizeOfChat
        && forall j :: 0 <= j < |fs[i].results| ==> fs[i].results[j].id !in ctx.seenIds
  {
    var fetch := FetchOf(None, store, ai.searchPlan, ctx.seenIds, avg);
    ResultsExcludeSeen(store, ai.searchPlan, PageSizeOfChat, ctx.seenIds, avg);
    ResultsWithinPage(store, ai.searchPlan, PageSizeOfChat, ctx.seenIds, avg);
    var fs := ChatFrames(ai, ctx, stats, statsReply, fetch, narration);
    ResultsFrameIsTheFetch(ai, ctx, stats, statsReply, fetch, narration);
  }
}
