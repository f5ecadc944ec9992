/** The deterministic parts of backend/api/services/ai_service.py: who the
    user is, which messages the intent call sends, and the text produced
    when there is no model client or its call fails. The model's replies
    are inputs. */
module AiService {
  import opened Wrappers
  import opened Numbers
  import opened Strings
  import opened Seqs
  import opened Listings
  import opened Results
  import opened Stats

  datatype ChatMessage = ChatMessage(role: string, content: string)

  /** The `context` a chat request carries. `filtersJson` is the
      `json.dumps` of its `filters`, taken as given; `page` and `user_name`
      may be missing. */
  datatype SessionContext = SessionContext(
    userName: Option<string>,
    history: seq<ChatMessage>,
    filtersJson: string,
    page: Option<int>,
    seenIds: seq<int>)

  /** The outcome of one call to the model client: no client configured,
      a reply, or an exception with its message. */
  datatype Reply<T> = NoClient | Replied(value: T) | Raised(error: string)

  /** The parsed intent: `type`, `searchPlan`, `response` and `wantsTable`
      (a missing `type` or `response` is the empty string). */
  datatype AiPlan = AiPlan(kind: string, searchPlan: SearchPlan, response: string, wantsTable: bool)

  // ---------------------------------------------------------------------------
  // The user's name

  const NameMarker: string := "my name is "
  const NameStripped: set<char> := {' ', '.', '!'}
  const NameSplitter: string := "is "

  /** The lowercased content contains `"my name is "`. */
  predicate Mentions(m: ChatMessage)
  {
    Contains(Lower(m.content), NameMarker)
  }

  /** The index of the most recent history message that mentions a name. */
  function LastMention(history: seq<ChatMessage>): (r: Option<int>)
    ensures r.Some? ==> 0 <= r.value < |history| && Mentions(history[r.value])
    ensures r.Some? ==> forall j :: r.value < j < |history| ==> !Mentions(history[j])
    ensures r.None? ==> forall j :: 0 <= j < |history| ==> !Mentions(history[j])
  {
    if history == [] then None
    else if Mentions(history[|history| - 1]) then Some(|history| - 1)
    else LastMention(history[..|history| - 1])
  }

  /** `content.split("is ")[-1].strip(' .!')`: case-sensitive, unlike the test. */
  function NameIn(content: string): string
  {
    var parts := Split(content, NameSplitter);
    Strip(parts[|parts| - 1], NameStripped)
  }

  /** The extracted name is free of `"is "` and of the stripped characters
      at both ends. */
  lemma NameInShape(content: string)
    ensures !Contains(NameIn(content), NameSplitter)
    ensures NameIn(content) == [] || (NameIn(content)[0] !in NameStripped
                                      && NameIn(content)[|NameIn(content)| - 1] !in NameStripped)
  {
    var parts := Split(content, NameSplitter);
    SplitPieceAvoidsSep(content, NameSplitter, |parts| - 1);
    StripAvoids(parts[|parts| - 1], NameStripped, NameSplitter);
  }

  /** The name the intent call uses: a truthy `user_name` of the context,
      else the name in the most recent mentioning message, else none (""). */
  function UserNameFor(ctx: SessionContext): (name: string)
    ensures ctx.userName.Some? && ctx.userName.value != "" ==> name == ctx.userName.value
    ensures (ctx.userName.None? || ctx.userName.value == "") && LastMention(ctx.history).None? ==> name == ""
    ensures (ctx.userName.None? || ctx.userName.value == "") && LastMention(ctx.history).Some? ==>
      name == NameIn(ctx.history[LastMention(ctx.history).value].content)
  {
    if ctx.userName.Some? && ctx.userName.value != "" then ctx.userName.value
    else match LastMention(ctx.history)
      case Some(i) => NameIn(ctx.history[i].content)
      case None => ""
  }

  /** The loop over `reversed(history)` that stops at the first mention. */
  method ExtractUserName(ctx: SessionContext) returns (name: string)
    ensures name == UserNameFor(ctx)
  {
    name := if ctx.userName.Some? then ctx.userName.value else "";
    if name == "" {
      var history := ctx.history;
      var i := |history|;
      assert history[..i] == history;
      while i > 0
        invariant 0 <= i <= |history|
        invariant LastMention(history) == LastMention(history[..i])
        invariant name == ""
      {
        var msg := history[i - 1];
        assert history[..i][i - 1] == msg;
        if Mentions(msg) {
          assert LastMention(history[..i]) == Some(i - 1);
          name := NameIn(msg.content);
          return;
        }
        assert history[..i][..i - 1] == history[..i - 1];
        i := i - 1;
      }
      assert LastMention(history) == None;
    }
  }

  /** Detection lowercases: "My Name Is Sara" counts as a mention. */
  lemma CapitalisedMentionDetected()
    ensures Mentions(ChatMessage("user", "My Name Is Sara"))
  {
    var lowered := Lower("My Name Is Sara");
    assert lowered == "my name is sara";
    assert OccursAt(lowered, NameMarker, 0);
  }

  lemma KeepsEnds(text: string)
    requires text == "My Name Is Sara"
    ensures Strip(text, NameStripped) == text
  {
    assert text[0] == 'M' && text[|text| - 1] == 'a';
    StripUnchanged(text, NameStripped);
  }

  lemma NoLowercaseI(text: string)
    requires forall i :: 0 <= i < |text| ==> text[i] != 'i'
    ensures forall i :: 0 <= i <= |text| - |NameSplitter| ==> !OccursAt(text, NameSplitter, i)
  {
    forall i | 0 <= i <= |text| - |NameSplitter|
      ensures !OccursAt(text, NameSplitter, i)
    {
      assert text[i..i + 3][0] == text[i];
    }
  }

  /** Extraction does not lowercase: "My Name Is Sara" has no lowercase
      "is ", so the whole text becomes the name. */
  lemma CapitalisedMentionNotSplit()
    ensures NameIn("My Name Is Sara") == "My Name Is Sara"
  {
    var text := "My Name Is Sara";
    KeepsEnds(text);
    NoLowercaseI(text);
    SplitWithoutSep(text, NameSplitter);
  }

  // ---------------------------------------------------------------------------
  // The messages of the intent call

  /** `history[-6:]`. */
  function LastSix(history: seq<ChatMessage>): (r: seq<ChatMessage>)
    ensures |r| == if |history| < 6 then |history| else 6
    ensures r == history[|history| - |r|..]
  {
    if |history| <= 6 then history else history[|history| - 6..]
  }

  function SystemMessage(content: string): ChatMessage
  {
    ChatMessage("system", content)
  }

  function StateInfo(ctx: SessionContext): string
  {
    "Current Session State: Filters=" + ctx.filtersJson + ", Page=" + IntToString(ctx.page.GetOr(1)) + "."
  }

  /** The system messages before the history: the prompt, the name if
      any, and the session state. */
  function Header(systemPrompt: string, ctx: SessionContext): seq<ChatMessage>
  {
    var name := UserNameFor(ctx);
    [SystemMessage(systemPrompt)]
    + (if name != "" then [SystemMessage("The user's name is " + name + ".")] else [])
    + [SystemMessage(StateInfo(ctx))]
  }

  /** The messages list: the header, the last six history entries, and the
      user's message. */
  function Messages(systemPrompt: string, ctx: SessionContext, userMessage: string): seq<ChatMessage>
  {
    Header(systemPrompt, ctx) + LastSix(ctx.history) + [ChatMessage("user", userMessage)]
  }

  /** The system messages, appended one by one. */
  method BuildHeader(systemPrompt: string, ctx: SessionContext) returns (messages: seq<ChatMessage>)
    ensures messages == Header(systemPrompt, ctx)
  {
    messages := [SystemMessage(systemPrompt)];
    var name := ExtractUserName(ctx);
    if name != "" {
      messages := messages + [SystemMessage("The user's name is " + name + ".")];
    }
    messages := messages + [SystemMessage(StateInfo(ctx))];
  }

  /** `for msg in trimmed: messages.append({"role": ..., "content": ...})`. */
  method AppendHistory(messages: seq<ChatMessage>, trimmed: seq<ChatMessage>) returns (out: seq<ChatMessage>)
    ensures out == messages + trimmed
  {
    out := messages;
    var i := 0;
    while i < |trimmed|
      invariant 0 <= i <= |trimmed|
      invariant out == messages + trimmed[..i]
    {
      out := out + [ChatMessage(trimmed[i].role, trimmed[i].content)];
      assert trimmed[..i + 1] == trimmed[..i] + [trimmed[i]];
      i := i + 1;
    }
    assert trimmed[..i] == trimmed;
  }

  method AssembleMessages(systemPrompt: string, ctx: SessionContext, userMessage: string)
    returns (messages: seq<ChatMessage>)
    ensures messages == Messages(systemPrompt, ctx, userMessage)
  {
    var header := BuildHeader(systemPrompt, ctx);
    messages := AppendHistory(header, LastSix(ctx.history));
    messages := messages + [ChatMessage("user", userMessage)];
  }

  /** The system prompt comes first and the user's message last; in between
      are the name message when there is a name, the session state, and
      then the newest history entries, at most six, in their order. */
  lemma MessagesShape(systemPrompt: string, ctx: SessionContext, userMessage: string)
    ensures var m := Messages(systemPrompt, ctx, userMessage);
      var k := if UserNameFor(ctx) != "" then 2 else 1;
      var h := if |ctx.history| < 6 then |ctx.history| else 6;
      && |m| == k + 2 + h
      && m[0] == SystemMessage(systemPrompt)
      && m[|m| - 1] == ChatMessage("user", userMessage)
      && (UserNameFor(ctx) != "" ==> m[1] == SystemMessage("The user's name is " + UserNameFor(ctx) + "."))
      && m[k] == SystemMessage(StateInfo(ctx))
      && m[k + 1..|m| - 1] == ctx.history[|ctx.history| - h..]
  {
    var head := Header(systemPrompt, ctx);
    var m := Messages(systemPrompt, ctx, userMessage);
    var k := if UserNameFor(ctx) != "" then 2 else 1;
    assert |head| == k + 1;
    assert m[..k + 1] == head;
    assert m[k + 1..|m| - 1] == LastSix(ctx.history);
  }

  // ---------------------------------------------------------------------------
  // get_ai_intent, get_simple_response

  const MissingKeyMessage: string := "AI service currently unavailable (API key missing)."

  /** Without a client, or when the call raises, the intent is an error. */
  function GetAiIntent(reply: Reply<AiPlan>): (r: AiPlan)
    ensures reply.NoClient? ==> r.kind == "error" && r.response == MissingKeyMessage
    ensures reply.Raised? ==> r.kind == "error" && r.response == "AI Error: " + reply.error
    ensures reply.Replied? ==> r == reply.value
  {
    match reply
    case NoClient => AiPlan("error", EmptyPlan, MissingKeyMessage, false)
    case Raised(e) => AiPlan("error", EmptyPlan, "AI Error: " + e, false)
    case Replied(plan) => plan
  }

  const NoClientGreeting: string := "I am Houser AI, your UAE real estate advisor. How can I help you?"
  const FailedGreeting: string := "How can I assist you with your property needs today?"

  /** `get_simple_response`: the stripped reply, or a fixed sentence. */
  function SimpleResponse(reply: Reply<string>): (r: string)
    ensures reply.NoClient? ==> r == NoClientGreeting
    ensures reply.Raised? ==> r == FailedGreeting
    ensures reply.Replied? ==> r == [] || (r[0] !in Whitespace && r[|r| - 1] !in Whitespace)
  {
    match reply
    case NoClient => NoClientGreeting
    case Raised(_) => FailedGreeting
    case Replied(text) => Trim(text)
  }

  /** A reply is relayed with exactly its leading and trailing whitespace cut. */
  lemma SimpleResponseStripped(reply: Reply<string>)
    requires reply.Replied?
    ensures var r := SimpleResponse(reply);
      exists a :: 0 <= a <= |reply.value| - |r| && StrippedAt(reply.value, Whitespace, r, a)
  {
    StripIsExact(reply.value, Whitespace);
    assert SimpleResponse(reply) == Strip(reply.value, Whitespace);
  }

  // ---------------------------------------------------------------------------
  // stream_professional_response

  /** The streamed narration: the deltas received and whether the stream
      raised, or no client at all. */
  datatype Narration = NoNarrator | Narrated(deltas: seq<string>, failed: bool)

  /** `session_context.get('user_name', 'Client')`. */
  function AddressName(ctx: SessionContext): string
  {
    ctx.userName.GetOr("Client")
  }

  function FoundSentence(name: string, count: int): string
  {
    name + ", I found " + IntToString(count) + " properties for you."
  }

  function CuratedSentence(name: string, count: int, area: string): string
  {
    name + ", I have curated " + IntToString(count) + " premium options in " + area + "."
  }

  /** The deltas with content. */
  function NonEmptyDeltas(deltas: seq<string>): (r: seq<string>)
    ensures |r| <= |deltas|
    ensures forall i :: 0 <= i < |r| ==> r[i] != ""
    ensures r == FilterMap(deltas, (d: string) => d != "", (d: string) => d)
  {
    if deltas == [] then []
    else (if deltas[0] != "" then [deltas[0]] else []) + NonEmptyDeltas(deltas[1..])
  }

  /** Filtering one more delta extends the filtered prefix by that delta when it is non-empty. */
  lemma {:induction false} NonEmptyDeltasSnoc(deltas: seq<string>, d: string)
    ensures NonEmptyDeltas(deltas + [d]) == NonEmptyDeltas(deltas) + (if d != "" then [d] else [])
  {
    if deltas != [] {
      assert (deltas + [d])[1..] == deltas[1..] + [d];
      NonEmptyDeltasSnoc(deltas[1..], d);
    } else {
      assert [d][1..] == [];
    }
  }

  /** `for chunk in response: if chunk...content: yield chunk...content`. */
  method RelayDeltas(deltas: seq<string>) returns (out: seq<string>)
    ensures out == NonEmptyDeltas(deltas)
  {
    out := [];
    var i := 0;
    while i < |deltas|
      invariant 0 <= i <= |deltas|
      invariant out == NonEmptyDeltas(deltas[..i])
    {
      NonEmptyDeltasSnoc(deltas[..i], deltas[i]);
      assert deltas[..i + 1] == deltas[..i] + [deltas[i]];
      if deltas[i] != "" {
        out := out + [deltas[i]];
      }
      i := i + 1;
    }
    assert deltas[..i] == deltas;
  }

  /** The chunks `stream_professional_response` yields. */
  function NarrativeChunks(narration: Narration, ctx: SessionContext, results: seq<ResultItem>, filters: Filter): seq<string>
  {
    var name := AddressName(ctx);
    match narration
    case NoNarrator => [FoundSentence(name, |results|)]
    case Narrated(deltas, failed) =>
      NonEmptyDeltas(deltas)
      + (if failed then [CuratedSentence(name, |results|, NonEmptyOr(filters.area, "Dubai"))] else [])
  }

  /** Without a client the narration is the single found-sentence; with one
      it is the non-empty deltas in order, followed by the curated sentence
      exactly when the stream raised. No chunk is ever empty. */
  lemma NarrativeChunksShape(narration: Narration, ctx: SessionContext, results: seq<ResultItem>, filters: Filter)
    ensures var cs := NarrativeChunks(narration, ctx, results, filters);
      && (forall i :: 0 <= i < |cs| ==> cs[i] != "")
      && (narration.NoNarrator? ==> cs == [FoundSentence(AddressName(ctx), |results|)])
      && (narration.Narrated? ==>
            && cs[..|NonEmptyDeltas(narration.deltas)|] == NonEmptyDeltas(narration.deltas)
            && (|cs| > |NonEmptyDeltas(narration.deltas)| <==> narration.failed))
  {
  }

  const ExactTag: string := "EXACT MATCH"
  const StrategicTag: string := "STRATEGIC RECOMMENDATION"

  /** `r['beds']` as Python formats it. */
  function BedsText(b: Beds): string
  {
    match b
    case Studio => "Studio"
    case Rooms(n) => IntToString(n)
    case NoBeds => "N/A"
  }

  /** `[EXACT MATCH]` or `[STRATEGIC RECOMMENDATION]`. */
  function SnippetTag(r: ResultItem): string
  {
    "[" + (if r.isExactMatch then ExactTag else StrategicTag) + "]"
  }

  /** `title (AED price, beds Beds, location)`. */
  function SnippetBody(r: ResultItem): string
  {
    r.title + " (AED " + WithThousands(Trunc(r.price)) + ", " + BedsText(r.beds) + " Beds, " + r.location + ")"
  }

  /** One finding of the narration prompt. */
  function Snippet(r: ResultItem): string
  {
    SnippetTag(r) + " " + SnippetBody(r)
  }

  function Snippets(results: seq<ResultItem>): (s: seq<string>)
    ensures |s| == if |results| < 5 then |results| else 5
  {
    var top := Take(results, 5);
    seq(|top|, i requires 0 <= i < |top| => Snippet(top[i]))
  }

  method BuildSnippets(results: seq<ResultItem>) returns (snippets: seq<string>)
    ensures snippets == Snippets(results)
  {
    snippets := [];
    var top := Take(results, 5);
    var i := 0;
    while i < |top|
      invariant 0 <= i <= |top|
      invariant |snippets| == i
      invariant forall j :: 0 <= j < i ==> snippets[j] == Snippet(top[j])
    {
      snippets := snippets + [Snippet(top[i])];
      i := i + 1;
    }
  }

  /** A finding starts with `[EXACT MATCH]` exactly for an exact match. */
  lemma SnippetTagged(r: ResultItem)
    ensures StartsWith(Snippet(r), "[" + ExactTag + "]") <==> r.isExactMatch
  {
    var tag := SnippetTag(r);
    var rest := " " + SnippetBody(r);
    var full := Snippet(r);
    assert full == tag + rest;
    var exact := "[" + ExactTag + "]";
    if r.isExactMatch {
      assert tag == exact;
      StartsWithOwnPrefix(tag, rest);
    } else {
      var strategic := "[" + StrategicTag + "]";
      assert tag == strategic;
      assert strategic[1] == 'S' && exact[1] == 'E';
      assert full[1] == tag[1];
      DiffersAt(full, exact, 1);
    }
  }

  /** At most five findings, one per leading result, each tagged
      `[EXACT MATCH]` exactly when that result is an exact match. */
  lemma SnippetTags(results: seq<ResultItem>)
    ensures |Snippets(results)| <= 5
    ensures forall i :: 0 <= i < |Snippets(results)| ==>
      (StartsWith(Snippets(results)[i], "[" + ExactTag + "]") <==> results[i].isExactMatch)
  {
    var s := Snippets(results);
    var top := Take(results, 5);
    forall i | 0 <= i < |s|
      ensures StartsWith(s[i], "[" + ExactTag + "]") <==> results[i].isExactMatch
    {
      assert s[i] == Snippet(top[i]) && top[i] == results[i];
      SnippetTagged(results[i]);
    }
  }

  // ---------------------------------------------------------------------------
  // generate_stats_narrative

  function AnalysingSentence(name: string): string
  {
    name + ", I am analyzing the latest market data for you."
  }

  /** The stats narration: the analysing sentence without client or stats,
      the stripped reply, or the average sentence when the call raised. */
  function StatsNarrative(reply: Reply<string>, stats: Option<StatsSnapshot>, ctx: SessionContext): (r: string)
    ensures reply.NoClient? || stats.None? ==> r == AnalysingSentence(AddressName(ctx))
    ensures reply.Raised? && stats.Some? ==>
      r == "The market in " + stats.value.area + " shows an average entry of " + Aed(stats.value.avg) + "."
    ensures reply.Replied? && stats.Some? ==> r == [] || (r[0] !in Whitespace && r[|r| - 1] !in Whitespace)
  {
    if reply.NoClient? || stats.None? then AnalysingSentence(AddressName(ctx))
    else if reply.Replied? then Trim(reply.value)
    else "The market in " + stats.value.area + " shows an average entry of " + Aed(stats.value.avg) + "."
  }

  /** With stats at hand, a reply is relayed with exactly its leading and
      trailing whitespace cut. */
  lemma StatsNarrativeStripped(reply: Reply<string>, stats: Option<StatsSnapshot>, ctx: SessionContext)
    requires reply.Replied? && stats.Some?
    ensures var r := StatsNarrative(reply, stats, ctx);
      exists a :: 0 <= a <= |reply.value| - |r| && StrippedAt(reply.value, Whitespace, r, a)
  {
    StripIsExact(reply.value, Whitespace);
    assert StatsNarrative(reply, stats, ctx) == Strip(reply.value, Whitespace);
  }
}
