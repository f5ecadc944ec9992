/** The chat client of frontend/src/ChatApp.js: how it folds the event
    stream into the bot message and the session context, and the two pieces
    of card logic, `extractFeatures` and the computed key highlights. */
module ChatApp {
  import opened Wrappers
  import opened Numbers
  import opened Strings
  import opened Seqs
  import opened Listings
  import opened Results
  import opened Stats
  import opened Search
  import opened AiService
  import opened Views

  // ---------------------------------------------------------------------------
  // The stream reducer

  /** A parsed event: one of the server's frames, or one of the two event
      kinds the client also understands, which only attach display data. */
  datatype Incoming = Server(frame: Frame) | SearchStatsEvent | KeyHighlightsEvent

  /** The bot message being built, the loading indicator, and the session
      context carried to the next request. */
  datatype ClientState = ClientState(
    content: string,
    messageType: string,
    results: seq<ResultItem>,
    loading: bool,
    status: string,
    filters: Option<Filter>,
    seenIds: seq<int>)

  /** The state right after a message is sent. */
  function Start(filters: Option<Filter>, seenIds: seq<int>): ClientState
  {
    ClientState("", "search", [], true, "Initializing AI Engine...", filters, seenIds)
  }

  /** `data.filters.area || data.filters.city || 'UAE'`. */
  function Place(f: Filter): string
  {
    if f.area != "" then f.area else if f.city != "" then f.city else "UAE"
  }

  function IdsOf(rs: seq<ResultItem>): (ids: seq<int>)
    ensures |ids| == |rs|
    ensures forall i :: 0 <= i < |rs| ==> ids[i] == rs[i].id
  {
    seq(|rs|, i requires 0 <= i < |rs| => rs[i].id)
  }

  /** The `if / else if` chain for one event. An error frame without a
      response throws inside the `try`, and the `catch` drops it. */
  function Step(s: ClientState, m: Incoming): ClientState
  {
    match m
    case SearchStatsEvent => s
    case KeyHighlightsEvent => s
    case Server(f) =>
      match f
      case IntentFrame(fl) => s.(status := "Searching for properties in " + Place(fl) + "...", filters := Some(fl))
      case ResultsFrame(rs, _) => s.(results := rs)
      case TextChunk(c) => s.(content := s.content + c)
      case ErrorFrame(r) => if r != "" then s.(content := r, messageType := "error", loading := false) else s
      case StatsFrame(_, r, _) => if r != "" then s.(content := r, messageType := "stats", loading := false) else s
      case FinalFrame(_) =>
        s.(status := "Analysis complete.", loading := false,
           seenIds := if s.results != [] then Dedupe(s.seenIds + IdsOf(s.results)) else s.seenIds)
  }

  /** The events in arrival order, folded from the left. */
  function Fold(s: ClientState, ms: seq<Incoming>): ClientState
  {
    if ms == [] then s else Step(Fold(s, ms[..|ms| - 1]), ms[|ms| - 1])
  }

  const DataPrefix: string := "data: "

  /** The event of one line: only a `data: ` line is parsed, and a line
      that does not parse is skipped. `parse` is `JSON.parse`. */
  function LineEvents(l: string, parse: string -> Option<Incoming>): seq<Incoming>
  {
    if StartsWith(l, DataPrefix) && parse(l[|DataPrefix|..]).Some? then [parse(l[|DataPrefix|..]).value] else []
  }

  /** The events of the stream's lines, in order. */
  function Events(lines: seq<string>, parse: string -> Option<Incoming>): seq<Incoming>
  {
    if lines == [] then [] else Events(lines[..|lines| - 1], parse) + LineEvents(lines[|lines| - 1], parse)
  }

  /** One line of the read loop. */
  method HandleLine(s: ClientState, line: string, parse: string -> Option<Incoming>) returns (t: ClientState)
    ensures t == Fold(s, LineEvents(line, parse))
  {
    t := s;
    if StartsWith(line, DataPrefix) {
      var data := parse(line[|DataPrefix|..]);
      if data.Some? {
        FoldSnoc(s, [], data.value);
        assert [] + [data.value] == [data.value];
        t := Step(s, data.value);
      }
    }
  }

  /** The read loop: every line in turn, then `finally { setLoading(false) }`. */
  method ConsumeStream(start: ClientState, lines: seq<string>, parse: string -> Option<Incoming>)
    returns (s: ClientState)
    ensures s == Fold(start, Events(lines, parse)).(loading := false)
  {
    s := start;
    var i := 0;
    while i < |lines|
      invariant 0 <= i <= |lines|
      invariant s == Fold(start, Events(lines[..i], parse))
    {
      assert lines[..i + 1][..i] == lines[..i];
      FoldAppend(start, Events(lines[..i], parse), LineEvents(lines[i], parse));
      s := HandleLine(s, lines[i], parse);
      i := i + 1;
    }
    assert lines[..i] == lines;
    s := s.(loading := false);
  }

  lemma FoldSnoc(s: ClientState, ms: seq<Incoming>, m: Incoming)
    ensures Fold(s, ms + [m]) == Step(Fold(s, ms), m)
  {
    assert (ms + [m])[..|ms|] == ms;
  }

  lemma {:induction false} FoldAppend(s: ClientState, a: seq<Incoming>, b: seq<Incoming>)
    ensures Fold(s, a + b) == Fold(Fold(s, a), b)
    decreases |b|
  {
    if b == [] {
      assert a + b == a;
    } else {
      var init := b[..|b| - 1];
      FoldAppend(s, a, init);
      assert (a + b)[..|a + b| - 1] == a + init;
    }
  }

  lemma {:induction false} EventsAppend(a: seq<string>, b: seq<string>, parse: string -> Option<Incoming>)
    ensures Events(a + b, parse) == Events(a, parse) + Events(b, parse)
    decreases |b|
  {
    if b == [] {
      assert a + b == a;
    } else {
      var init := b[..|b| - 1];
      EventsAppend(a, init, parse);
      assert (a + b)[..|a + b| - 1] == a + init;
    }
  }

  /** Lines that are not `data: ` lines, blank ones among them, add no event. */
  lemma {:induction false} OtherLinesIgnored(lines: seq<string>, parse: string -> Option<Incoming>)
    requires forall i :: 0 <= i < |lines| ==> !StartsWith(lines[i], DataPrefix)
    ensures Events(lines, parse) == []
  {
    if lines != [] {
      OtherLinesIgnored(lines[..|lines| - 1], parse);
    }
  }

  /** Every event is the parse of a `data: ` line. */
  lemma {:induction false} EventsComeFromDataLines(lines: seq<string>, parse: string -> Option<Incoming>)
    ensures |Events(lines, parse)| <= |lines|
    ensures forall k :: 0 <= k < |Events(lines, parse)| ==>
      exists i :: 0 <= i < |lines| && StartsWith(lines[i], DataPrefix)
                  && parse(lines[i][|DataPrefix|..]) == Some(Events(lines, parse)[k])
  {
    if lines != [] {
      var init := lines[..|lines| - 1];
      EventsComeFromDataLines(init, parse);
      var es := Events(lines, parse);
      forall k | 0 <= k < |es|
        ensures exists i :: 0 <= i < |lines| && StartsWith(lines[i], DataPrefix)
                  && parse(lines[i][|DataPrefix|..]) == Some(es[k])
      {
        if k < |Events(init, parse)| {
          var i :| 0 <= i < |init| && StartsWith(init[i], DataPrefix)
                  && parse(init[i][|DataPrefix|..]) == Some(Events(init, parse)[k]);
          assert lines[i] == init[i];
        } else {
          var i := |lines| - 1;
          assert StartsWith(lines[i], DataPrefix) && parse(lines[i][|DataPrefix|..]) == Some(es[k]);
        }
      }
    }
  }

  /** The server frames as the client receives them. */
  function Lift(fs: seq<Frame>): (ms: seq<Incoming>)
    ensures |ms| == |fs|
    ensures forall i :: 0 <= i < |fs| ==> ms[i] == Server(fs[i])
  {
    seq(|fs|, i requires 0 <= i < |fs| => Server(fs[i]))
  }

  /** `a.join('')`. */
  function Concat(cs: seq<string>): string
  {
    if cs == [] then "" else Concat(cs[..|cs| - 1]) + cs[|cs| - 1]
  }

  /** Text chunks append to the message, in order, and change nothing else. */
  lemma {:induction false} ChunksConcatenate(s: ClientState, cs: seq<string>)
    ensures Fold(s, Lift(ChunkFrames(cs))) == s.(content := s.content + Concat(cs))
    decreases |cs|
  {
    if cs != [] {
      var init := cs[..|cs| - 1];
      ChunksConcatenate(s, init);
      assert Lift(ChunkFrames(cs)) == Lift(ChunkFrames(init)) + [Server(TextChunk(cs[|cs| - 1]))];
      FoldSnoc(s, Lift(ChunkFrames(init)), Server(TextChunk(cs[|cs| - 1])));
    }
  }

  /** Only a final frame, with results held, changes the seen ids. */
  lemma StepSeenIds(u: ClientState, m: Incoming)
    ensures Step(u, m).seenIds
         == if m.Server? && m.frame.FinalFrame? && u.results != [] then Dedupe(u.seenIds + IdsOf(u.results))
            else u.seenIds
  {
    match m
    case SearchStatsEvent =>
    case KeyHighlightsEvent =>
    case Server(f) =>
      match f
      case IntentFrame(_) =>
      case ResultsFrame(_, _) =>
      case TextChunk(_) =>
      case ErrorFrame(_) =>
      case StatsFrame(_, _, _) =>
      case FinalFrame(_) =>
  }

  /** One event keeps the seen ids free of duplicates and extends them. */
  lemma StepExtendsSeen(u: ClientState, m: Incoming)
    requires NoDuplicates(u.seenIds)
    ensures var t := Step(u, m);
      && NoDuplicates(t.seenIds)
      && |u.seenIds| <= |t.seenIds|
      && t.seenIds[..|u.seenIds|] == u.seenIds
  {
    StepSeenIds(u, m);
    var seen := u.seenIds;
    if m.Server? && m.frame.FinalFrame? && u.results != [] {
      DedupeExtends(seen, IdsOf(u.results));
      DedupeOfDistinct(seen);
    } else {
      assert seen[..|seen|] == seen;
    }
  }

  /** The seen ids only grow: the earlier ones stay, in order, without
      duplicates. */
  lemma {:induction false} SeenIdsOnlyGrow(s: ClientState, ms: seq<Incoming>)
    requires NoDuplicates(s.seenIds)
    ensures var t := Fold(s, ms);
      && NoDuplicates(t.seenIds)
      && |s.seenIds| <= |t.seenIds|
      && t.seenIds[..|s.seenIds|] == s.seenIds
    decreases |ms|
  {
    if ms != [] {
      var init := ms[..|ms| - 1];
      SeenIdsOnlyGrow(s, init);
      var u := Fold(s, init);
      var m := ms[|ms| - 1];
      StepExtendsSeen(u, m);
      var t := Step(u, m);
      assert Fold(s, ms) == t;
      assert t.seenIds[..|s.seenIds|] == t.seenIds[..|u.seenIds|][..|s.seenIds|];
    }
  }

  /** `final` records the shown results as seen. */
  lemma FinalRecordsResults(s: ClientState, table: Option<TableBlock>)
    ensures var t := Step(s, Server(FinalFrame(table)));
      && forall i :: 0 <= i < |s.results| ==> s.results[i].id in t.seenIds
  {
    var t := Step(s, Server(FinalFrame(table)));
    if s.results != [] {
      var all := s.seenIds + IdsOf(s.results);
      forall i | 0 <= i < |s.results|
        ensures s.results[i].id in t.seenIds
      {
        assert all[|s.seenIds| + i] == s.results[i].id;
      }
    }
  }

  // ---------------------------------------------------------------------------
  // A whole exchange

  function GreetingText(ai: AiPlan): string
  {
    if ai.response != "" then ai.response + " " else ""
  }

  lemma GreetingFold(s: ClientState, ai: AiPlan)
    ensures Fold(s, Lift(Greeting(ai))) == s.(content := s.content + GreetingText(ai))
  {
    if ai.response != "" {
      assert Lift(Greeting(ai)) == [] + [Server(TextChunk(ai.response + " "))];
      FoldSnoc(s, [], Server(TextChunk(ai.response + " ")));
    }
  }

  lemma LiftAppend(x: seq<Frame>, y: seq<Frame>)
    ensures Lift(x + y) == Lift(x) + Lift(y)
  {
  }

  /** A request whose intent is an error (no client, a raising call, or an
      `error` plan) shows the error text, ends loading and shows no results;
      an error frame without text is thrown and dropped, leaving the
      message as it started. */
  lemma ErrorExchange(aiReply: Reply<AiPlan>, ctx: SessionContext, stats: Option<StatsSnapshot>,
                      statsReply: Reply<string>, fetch: Fetch, narration: Narration,
                      prior: Option<Filter>, seen: seq<int>)
    requires aiReply.NoClient? || aiReply.Raised? || aiReply.value.kind == "error"
    ensures var ai := GetAiIntent(aiReply);
      var t := Fold(Start(prior, seen), Lift(ChatFrames(ai, ctx, stats, statsReply, fetch, narration)));
      && (ai.response != "" ==>
            && t.content == ai.response && t.messageType == "error" && !t.loading
            && t.results == [] && t.seenIds == seen && t.filters == prior)
      && (ai.response == "" ==> t == Start(prior, seen))
      && (aiReply.NoClient? ==> t.content == MissingKeyMessage && t.messageType == "error" && !t.loading)
      && (aiReply.Raised? ==> t.content == "AI Error: " + aiReply.error && t.messageType == "error" && !t.loading)
  {
    var ai := GetAiIntent(aiReply);
    var s0 := Start(prior, seen);
    var fs := ChatFrames(ai, ctx, stats, statsReply, fetch, narration);
    assert fs == [ErrorFrame(ai.response)];
    assert Lift(fs) == [] + [Server(ErrorFrame(ai.response))];
    FoldSnoc(s0, [], Server(ErrorFrame(ai.response)));
  }

  /** The intent frame and then the results frame. */
  lemma FoldIntentResults(s: ClientState, p: Filter, rs: seq<ResultItem>, fb: bool)
    ensures Fold(s, Lift([IntentFrame(p), ResultsFrame(rs, fb)]))
         == s.(status := "Searching for properties in " + Place(p) + "...", filters := Some(p), results := rs)
  {
    var mi := Server(IntentFrame(p));
    var mr := Server(ResultsFrame(rs, fb));
    assert Lift([IntentFrame(p), ResultsFrame(rs, fb)]) == [mi] + [mr];
    FoldSnoc(s, [mi], mr);
    assert [mi] == [] + [mi];
    FoldSnoc(s, [], mi);
  }

  /** Folding the frames of a successful search, whatever produced them. */
  lemma FoldSearchFrames(s0: ClientState, ai: AiPlan, p: Filter, out: SearchOutcome, cs: seq<string>,
                         table: Option<TableBlock>)
    ensures var t := Fold(s0, Lift(Greeting(ai) + [IntentFrame(p), ResultsFrame(out.results, out.isFallback)]
                                   + ChunkFrames(cs) + [FinalFrame(table)]));
      var u := s0.(content := s0.content + GreetingText(ai) + Concat(cs),
                   status := "Searching for properties in " + Place(p) + "...", filters := Some(p),
                   results := out.results);
      t == Step(u, Server(FinalFrame(table)))
  {
    var g := Greeting(ai);
    var ir := [IntentFrame(p), ResultsFrame(out.results, out.isFallback)];
    var c := ChunkFrames(cs);
    var last := Server(FinalFrame(table));
    LiftAppend(g + ir + c, [FinalFrame(table)]);
    assert Lift([FinalFrame(table)]) == [last];
    FoldSnoc(s0, Lift(g + ir + c), last);
    LiftAppend(g + ir, c);
    FoldAppend(s0, Lift(g + ir), Lift(c));
    LiftAppend(g, ir);
    FoldAppend(s0, Lift(g), Lift(ir));
    GreetingFold(s0, ai);
    var s1 := Fold(s0, Lift(g));
    assert s1 == s0.(content := s0.content + GreetingText(ai));
    FoldIntentResults(s1, p, out.results, out.isFallback);
    var s2 := Fold(s0, Lift(g + ir));
    assert s2 == s1.(status := "Searching for properties in " + Place(p) + "...", filters := Some(p),
                     results := out.results);
    ChunksConcatenate(s2, cs);
    assert Fold(s0, Lift(g + ir + c)) == s2.(content := s2.content + Concat(cs));
  }

  lemma EmptyPrefix(x: string, y: string)
    ensures "" + x + y == x + y
  {
  }

  /** The client state after the frames of a successful search. */
  lemma FoldedSearch(s0: ClientState, ai: AiPlan, p: Filter, out: SearchOutcome, cs: seq<string>,
                     table: Option<TableBlock>, fs: seq<Frame>)
    requires fs == Greeting(ai) + [IntentFrame(p), ResultsFrame(out.results, out.isFallback)]
                   + ChunkFrames(cs) + [FinalFrame(table)]
    ensures var t := Fold(s0, Lift(fs));
      && t.content == s0.content + GreetingText(ai) + Concat(cs)
      && t.messageType == s0.messageType
      && t.results == out.results
      && t.filters == Some(p)
      && t.status == "Analysis complete."
      && !t.loading
      && forall i :: 0 <= i < |out.results| ==> out.results[i].id in t.seenIds
  {
    FoldSearchFrames(s0, ai, p, out, cs, table);
    var u := s0.(content := s0.content + GreetingText(ai) + Concat(cs),
                 status := "Searching for properties in " + Place(p) + "...", filters := Some(p),
                 results := out.results);
    FinalRecordsResults(u, table);
  }

  /** The frames of a successful search, in order. */
  lemma SearchFramesSplit(ai: AiPlan, ctx: SessionContext, stats: Option<StatsSnapshot>, statsReply: Reply<string>,
                          out: SearchOutcome, narration: Narration)
    requires ai.kind != "error" && !IsConversational(ai) && ai.kind != "stats"
    ensures ChatFrames(ai, ctx, stats, statsReply, Fetched(out), narration)
         == Greeting(ai) + [IntentFrame(ai.searchPlan.primary), ResultsFrame(out.results, out.isFallback)]
            + ChunkFrames(NarrativeChunks(narration, ctx, out.results, ai.searchPlan.primary))
            + [FinalFrame(Some(TableBlock(SearchTableTitle, SearchTableRows(ai.wantsTable, out.results))))]
  {
    var g := Greeting(ai);
    var i := IntentFrame(ai.searchPlan.primary);
    var r := ResultsFrame(out.results, out.isFallback);
    var c := ChunkFrames(NarrativeChunks(narration, ctx, out.results, ai.searchPlan.primary));
    var f := FinalFrame(Some(TableBlock(SearchTableTitle, SearchTableRows(ai.wantsTable, out.results))));
    assert SearchTail(ai, ctx, Fetched(out), narration) == [r] + c + [f];
    assert ChatFrames(ai, ctx, stats, statsReply, Fetched(out), narration) == g + [i] + ([r] + c + [f]);
    assert g + [i] + ([r] + c + [f]) == g + [i, r] + c + [f];
  }

  /** A successful search, streamed to a client that had seen `seen`: the
      message reads the greeting followed by the narration, shows the
      fetched results, the session keeps the primary filter, and every
      shown listing is added to the seen ids sent with the next message. */
  lemma SearchExchange(ai: AiPlan, ctx: SessionContext, stats: Option<StatsSnapshot>, statsReply: Reply<string>,
                       out: SearchOutcome, narration: Narration, prior: Option<Filter>, seen: seq<int>)
    requires ai.kind != "error" && !IsConversational(ai) && ai.kind != "stats"
    ensures var t := Fold(Start(prior, seen), Lift(ChatFrames(ai, ctx, stats, statsReply, Fetched(out), narration)));
      && t.content == GreetingText(ai) + Concat(NarrativeChunks(narration, ctx, out.results, ai.searchPlan.primary))
      && t.messageType == "search"
      && t.results == out.results
      && t.filters == Some(ai.searchPlan.primary)
      && t.status == "Analysis complete."
      && !t.loading
      && forall i :: 0 <= i < |out.results| ==> out.results[i].id in t.seenIds
  {
    var p := ai.searchPlan.primary;
    var cs := NarrativeChunks(narration, ctx, out.results, p);
    var table := Some(TableBlock(SearchTableTitle, SearchTableRows(ai.wantsTable, out.results)));
    SearchFramesSplit(ai, ctx, stats, statsReply, out, narration);
    var s0 := Start(prior, seen);
    FoldedSearch(s0, ai, p, out, cs, table, ChatFrames(ai, ctx, stats, statsReply, Fetched(out), narration));
    EmptyPrefix(GreetingText(ai), Concat(cs));
  }

  /** A search whose database step failed: the message shows the error in
      place of the greeting, and nothing is added to the seen ids. */
  lemma FailedSearchExchange(ai: AiPlan, ctx: SessionContext, stats: Option<StatsSnapshot>, statsReply: Reply<string>,
                             msg: string, narration: Narration, prior: Option<Filter>, seen: seq<int>)
    requires ai.kind != "error" && !IsConversational(ai) && ai.kind != "stats"
    ensures var t := Fold(Start(prior, seen), Lift(ChatFrames(ai, ctx, stats, statsReply, FetchFailed(msg), narration)));
      && t.content == "System Speed Error: " + msg
      && t.messageType == "error"
      && t.results == []
      && t.seenIds == seen
      && !t.loading
  {
    var p := ai.searchPlan.primary;
    var err := ErrorFrame("System Speed Error: " + msg);
    var fs := ChatFrames(ai, ctx, stats, statsReply, FetchFailed(msg), narration);
    assert fs == Greeting(ai) + [IntentFrame(p), err];
    var s0 := Start(prior, seen);
    var a := Lift(Greeting(ai));
    assert Lift(fs) == a + [Server(IntentFrame(p)), Server(err)];
    FoldAppend(s0, a, [Server(IntentFrame(p)), Server(err)]);
    GreetingFold(s0, ai);
    var s1 := Fold(s0, a);
    FoldSnoc(s1, [Server(IntentFrame(p))], Server(err));
    FoldSnoc(s1, [], Server(IntentFrame(p)));
    assert [] + [Server(IntentFrame(p))] == [Server(IntentFrame(p))];
    assert [Server(IntentFrame(p))] + [Server(err)] == [Server(IntentFrame(p)), Server(err)];
  }

  /** Listings that one chat search showed are never streamed again by the
      next one, which sends the grown seen ids. */
  lemma ShownListingsNotRepeated(store: seq<Listing>, ai: AiPlan, ctx: SessionContext, stats: Option<StatsSnapshot>,
                                 statsReply: Reply<string>, out: SearchOutcome, narration: Narration,
                                 prior: Option<Filter>, seen: seq<int>,
                                 next: AiPlan, nextCtx: SessionContext, nextStats: Option<StatsSnapshot>,
                                 nextReply: Reply<string>, nextNarration: Narration, avg: real)
    requires ai.kind != "error" && !IsConversational(ai) && ai.kind != "stats"
    requires nextCtx.seenIds == Fold(Start(prior, seen), Lift(ChatFrames(ai, ctx, stats, statsReply, Fetched(out), narration))).seenIds
    ensures var fs := ChatFrames(next, nextCtx, nextStats, nextReply,
                                 FetchOf(None, store, next.searchPlan, nextCtx.seenIds, avg), nextNarration);
      forall i, j, k :: 0 <= i < |fs| && fs[i].ResultsFrame? && 0 <= j < |fs[i].results| && 0 <= k < |out.results| ==>
        fs[i].results[j].id != out.results[k].id
  {
    SearchExchange(ai, ctx, stats, statsReply, out, narration, prior, seen);
    StreamedResultsAreNew(store, next, nextCtx, nextStats, nextReply, nextNarration, avg);
  }

  // ---------------------------------------------------------------------------
  // Card logic

  /** The `key_features` field as it may arrive: absent or falsy, a list, a
      non-empty string, or some other truthy value. */
  datatype KeyFeatures = NoFeatures | FeatureList(items: seq<string>) | FeatureText(text: string) | OtherFeatures

  const FeatureSeparators: set<char> := {',', ';', '|', '/'}
  const PhraseSeparators: set<char> := {',', ';', '|'}
  const SentenceSeparators: set<char> := {'.', '\n'}

  /** A non-empty phrase with no whitespace at either end. */
  predicate Trimmed(t: string)
  {
    t != [] && t[0] !in Whitespace && t[|t| - 1] !in Whitespace
  }

  /** A piece that is not blank once trimmed. */
  predicate HasText(p: string)
  {
    Trim(p) != []
  }

  /** `.map(s => s.trim()).filter(Boolean)`: the trimmed pieces with text, in order. */
  function Phrases(parts: seq<string>): (r: seq<string>)
    ensures |r| <= |parts|
    ensures forall i :: 0 <= i < |r| ==> Trimmed(r[i])
    ensures r == FilterMap(parts, HasText, Trim)
  {
    if parts == [] then []
    else
      var t := Trim(parts[0]);
      var rest := Phrases(parts[1..]);
      if t != [] then
        assert Trimmed(t);
        assert forall i :: 0 < i < |rest| + 1 ==> ([t] + rest)[i] == rest[i - 1];
        [t] + rest
      else rest
  }

  /** The first phrase is the first piece with text, trimmed. */
  lemma PhrasesFirst(parts: seq<string>, j: int)
    requires 0 <= j < |parts| && Trim(parts[j]) != []
    requires forall k :: 0 <= k < j ==> Trim(parts[k]) == []
    ensures Phrases(parts) != [] && Phrases(parts)[0] == Trim(parts[j])
  {
    FilterMapFirst(parts, HasText, Trim, j);
  }

  /** A phrase keeps none of the characters its parts avoid. */
  lemma {:induction false} PhrasesAvoid(parts: seq<string>, ds: set<char>)
    requires forall k, j :: 0 <= k < |parts| && 0 <= j < |parts[k]| ==> parts[k][j] !in ds
    ensures forall k, j :: 0 <= k < |Phrases(parts)| && 0 <= j < |Phrases(parts)[k]| ==> Phrases(parts)[k][j] !in ds
  {
    if parts != [] {
      var rest := parts[1..];
      assert forall k :: 0 <= k < |rest| ==> rest[k] == parts[k + 1];
      PhrasesAvoid(rest, ds);
      StripAvoidsChars(parts[0], Whitespace, ds);
      var t, r := Trim(parts[0]), Phrases(rest);
      if t != [] {
        assert forall k :: 0 < k < |r| + 1 ==> ([t] + r)[k] == r[k - 1];
      }
    }
  }

  /** `extractFeatures`: at most two short phrases for a card. */
  function ExtractFeatures(kf: KeyFeatures, description: string): (r: seq<string>)
    ensures |r| <= 2
  {
    if kf.FeatureList? then Take(kf.items, 2)
    else if kf.FeatureText? && kf.text != "" then Take(Phrases(SplitAny(kf.text, FeatureSeparators)), 2)
    else if description != "" then Take(Phrases(SplitAny(SplitAny(description, SentenceSeparators)[0], PhraseSeparators)), 2)
    else []
  }

  /** The first two phrases of pieces that avoid `ds` are trimmed and
      avoid `ds` too. */
  lemma FirstPhrases(parts: seq<string>, ds: set<char>)
    requires forall k, j :: 0 <= k < |parts| && 0 <= j < |parts[k]| ==> parts[k][j] !in ds
    ensures var r := Take(Phrases(parts), 2);
      && (forall i :: 0 <= i < |r| ==> Trimmed(r[i]))
      && (forall i, j :: 0 <= i < |r| && 0 <= j < |r[i]| ==> r[i][j] !in ds)
  {
    var ph := Phrases(parts);
    PhrasesAvoid(parts, ds);
    var r := Take(ph, 2);
    assert forall i :: 0 <= i < |r| ==> r[i] == ph[i];
  }

  /** A list is cut to its first two entries; otherwise every feature is a
      non-empty trimmed phrase of the text (or of the description's first
      sentence) holding no separator; with neither there are none. */
  lemma FeaturesShape(kf: KeyFeatures, description: string)
    ensures var r := ExtractFeatures(kf, description);
      && (kf.FeatureList? ==> r == Take(kf.items, 2))
      && (kf.FeatureText? && kf.text != "" ==> r == Take(Phrases(SplitAny(kf.text, FeatureSeparators)), 2))
      && (!kf.FeatureList? && !(kf.FeatureText? && kf.text != "") && description != "" ==>
            r == Take(Phrases(SplitAny(SplitAny(description, SentenceSeparators)[0], PhraseSeparators)), 2))
      && (!kf.FeatureList? && !(kf.FeatureText? && kf.text != "") && description == "" ==> r == [])
      && (!kf.FeatureList? ==> forall i :: 0 <= i < |r| ==> Trimmed(r[i]))
      && (kf.FeatureText? && kf.text != "" ==>
            forall i, j :: 0 <= i < |r| && 0 <= j < |r[i]| ==> r[i][j] !in FeatureSeparators)
      && (!kf.FeatureList? && !(kf.FeatureText? && kf.text != "") ==>
            forall i, j :: 0 <= i < |r| && 0 <= j < |r[i]| ==> r[i][j] !in PhraseSeparators)
  {
    if kf.FeatureText? && kf.text != "" {
      var parts := SplitAny(kf.text, FeatureSeparators);
      assert ExtractFeatures(kf, description) == Take(Phrases(parts), 2);
      FirstPhrases(parts, FeatureSeparators);
    } else if !kf.FeatureList? && description != "" {
      var parts := SplitAny(SplitAny(description, SentenceSeparators)[0], PhraseSeparators);
      assert ExtractFeatures(kf, description) == Take(Phrases(parts), 2);
      FirstPhrases(parts, PhraseSeparators);
    }
  }

  /** Card key highlights computed from the results. */
  datatype Highlights = Highlights(count: int, avgPrice: int, lowestPrice: real, highestPrice: real)

  predicate PricePositive(r: ResultItem)
  {
    r.price > 0.0
  }

  /** `results.map(r => Number(r.price) || 0).filter(v => v > 0)`. */
  function PositivePrices(rs: seq<ResultItem>): (ps: seq<real>)
    ensures |ps| <= |rs|
    ensures forall i :: 0 <= i < |ps| ==> ps[i] > 0.0
    ensures forall i :: 0 <= i < |rs| && rs[i].price > 0.0 ==> rs[i].price in ps
    ensures (forall i :: 0 <= i < |rs| ==> rs[i].price <= 0.0) ==> ps == []
    ensures ps == FilterMap(rs, PricePositive, ItemPrice)
  {
    if rs == [] then []
    else
      var rest := PositivePrices(rs[1..]);
      assert forall i :: 0 < i < |rs| ==> rs[i] == rs[1..][i - 1];
      (if rs[0].price > 0.0 then [rs[0].price] else []) + rest
  }

  function ComputeHighlights(rs: seq<ResultItem>): Highlights
  {
    var ps := PositivePrices(rs);
    if ps != [] then Highlights(|rs|, RoundHalfUp(MeanOf(ps)), MinOf(ps), MaxOf(ps))
    else Highlights(|rs|, 0, 0.0, 0.0)
  }

  /** The highlights count every result; with a positive price the lowest
      and highest are prices of results and bound every positive price, and
      the average is the mean of the positive prices rounded half up;
      without one, all three figures are zero. */
  lemma HighlightsBounds(rs: seq<ResultItem>)
    ensures var h := ComputeHighlights(rs);
      && h.count == |rs|
      && ((exists i :: 0 <= i < |rs| && rs[i].price > 0.0) ==>
            && 0.0 < h.lowestPrice <= h.highestPrice
            && (exists i :: 0 <= i < |rs| && rs[i].price == h.lowestPrice)
            && (exists i :: 0 <= i < |rs| && rs[i].price == h.highestPrice)
            && forall i :: 0 <= i < |rs| && rs[i].price > 0.0 ==> h.lowestPrice <= rs[i].price <= h.highestPrice)
      && ((exists i :: 0 <= i < |rs| && rs[i].price > 0.0) ==>
            var mean := MeanOf(PositivePrices(rs));
            h.avgPrice as real - 0.5 <= mean < h.avgPrice as real + 0.5)
      && ((forall i :: 0 <= i < |rs| ==> rs[i].price <= 0.0) ==> h == Highlights(|rs|, 0, 0.0, 0.0))
  {
    var ps := PositivePrices(rs);
    if ps != [] {
      MeanBetweenMinAndMax(ps);
      forall i | 0 <= i < |rs| && rs[i].price > 0.0
        ensures MinOf(ps) <= rs[i].price <= MaxOf(ps)
      {
        var k :| 0 <= k < |ps| && ps[k] == rs[i].price;
      }
      PricesArePricesOf(rs, MinOf(ps));
      PricesArePricesOf(rs, MaxOf(ps));
    }
  }

  /** Every positive price is the price of some result. */
  lemma PricesArePricesOf(rs: seq<ResultItem>, p: real)
    requires p in PositivePrices(rs)
    ensures exists i :: 0 <= i < |rs| && rs[i].price == p
  {
    FilterMapMember(rs, PricePositive, ItemPrice, p);
  }
}
