# Houser: a verified model of the search back end and the chat stream

Houser is a chat front end for UAE real estate. The user types a request.
The Django back end asks a language model for an intent and a search plan.
It then runs a tiered search over the listings database, enriches each hit
with a price insight against the market average, and streams back a
sequence of server-sent frames: intent, results, narration, final. The
React client folds those frames into a bot message, and it records the
shown listing ids so the next search leaves them out.

This project models that core in Dafny and proves its properties.

- **Helpers**, all defined here: `Wrappers`, `Numbers`, `Strings` and `Seqs`.
  They cover Python's `int()` truncation, `str.split`, `strip`, `replace`,
  `f"{n:,}"` and slicing. They also cover JavaScript's `[...new Set(xs)]` and
  `Math.round`.
- **`CacheService`**: the process-wide `SimpleCache`. It is a class whose `data`
  map its methods update, with lazy per-entry expiry against an explicit
  clock `now`.
- **`Listings`**: the listings store as a sequence of joined rows. The
  WHERE clause that `build_query` writes becomes the predicate `Matches`.
  The executor is "filter, stable sort by price ascending, LIMIT".
- **`Results`**: the items `query_properties` returns. This module holds the
  price-insight rule and the field defaults.
- **`Stats`**: two pieces.
  - `calculate_results_stats`, the stats of a result set in memory.
  - The market aggregate with its city breakdown, served through the cache
    by the method `GetPropertyStats`.
- **`Search`**: the three-tier search of `query_properties`, as imperative
  loops proved equal to reference functions. Next to them are the lemmas on
  exclusion, distinctness, page bound, tier order, tier gating and
  `isFallback`.
- **`AiService`**: the deterministic parts around the model calls:
  - user-name extraction (a reverse loop that stops at the most recent mention);
  - message assembly;
  - the error intents;
  - the fallback sentences;
  - relaying stream deltas;
  - the result snippets;
  - the stats narration.
- **`Views`**: the keyword gate, the legacy filter merge, `hasMore` and
  `format_response`. It also holds `chat_stream_generator`, which is a method
  producing the exact frame sequence, proved equal to the function
  `ChatFrames`, with lemmas on frame order.
- **`ChatApp`**: the client's stream reducer, with an end-to-end lemma. The
  lemma runs the frames of one chat search through the client. The seen ids
  the client sends next make the following search skip every listing
  already shown. The module also holds `extractFeatures` and the computed
  key highlights.

The model follows the code as written in these places:

- The city test is equality or **suffix** (`LIKE '%' || city`), not prefix:
  "New Dubai" matches "dubai" (`Listings.CityIsSuffixMatch`).
- Tiers 2 and 3 are **issued** with `LIMIT 0` when tier 1 has already filled
  the page. They are not skipped (`Search.ExhaustedBudgetStillQueries`).
- A page size of 0 still runs the queries.
- The `page` argument is never used.
- The search endpoint passes its flat `filters` dictionary as the plan
  (`views.py:61`), and `query_properties` reads only `plan.get('primary', {})`.
  So the request's filters, the merged legacy keys included, reach
  `build_query` only under a `primary` key. The `Search` module takes the
  plan as given, and `Views.HasMoreMeansFullPage` holds for every plan.

Collaborators are inputs:

- the model client's answers are `Reply<T>` (no client, replied, raised);
- the narration stream is `Narration`;
- the outcome of waiting for the database thread is `Fetch`;
- the JSON parser of the client is a function `parse`;
- the clock is `now`.

## Model

| member | source | states |
|---|---|---|
| CacheService.Lookup | backend/api/services/cache_service.py:8-15 | `get` yields a value exactly when the key is stored and `now` is strictly before its expiry (the expiry instant itself counts as expired), and then it is the stored value |
| CacheService.AfterGet | backend/api/services/cache_service.py:9-15 | after `get`, only an expired entry for the requested key is gone; every other entry is unchanged, and an absent key leaves the store as it was |
| CacheService.EffectiveTtl | backend/api/services/cache_service.py:18 | a missing or zero ttl falls back to the default ttl, any other is used as given |
| CacheService.SimpleCache.constructor | backend/api/services/cache_service.py:4-6 | a new cache is empty and keeps its default ttl |
| CacheService.SimpleCache.Get | backend/api/services/cache_service.py:8-15 | returns `Lookup` of the old store and leaves the store as `AfterGet` describes |
| CacheService.SimpleCache.Set | backend/api/services/cache_service.py:17-22 | the key now maps to the value with expiry `now + ttl`, overwriting any previous entry; no other key changes |
| CacheService.SimpleCache.Clear | backend/api/services/cache_service.py:24-25 | the store is empty |
| CacheService.LookupAfterSet | backend/api/services/cache_service.py:17-22 | a value just set is returned by `get` at any time before `now + ttl` and by none at or after it |
| CacheService.LookupOtherAfterSet | backend/api/services/cache_service.py:17-22 | setting one key never changes what `get` answers for another |
| CacheService.LazyExpiryUnobservable | backend/api/services/cache_service.py:13-14 | deleting an expired entry inside `get` changes no later answer of `get` for any key |
| CacheService.LookupAfterClear | backend/api/services/cache_service.py:24-25 | after `clear`, `get` returns nothing for every key |
| Listings.Where | backend/api/services/db_service.py:36-93 | the WHERE clause keeps at most the store's rows, each a store row the query admits; the result is the store filtered by the query's admission test, in store order (with `Seqs.FilterMapIndexed`, an order-preserving filter) |
| Listings.Matches | backend/api/services/db_service.py:36-93 | the definition of the WHERE clause `build_query` writes: active, priced, then category, beds, price bounds, city suffix, area, the buy/rent rule, the residential allow-list and the seen ids; its consequences are stated by `AdmittedRowsAreListed`, `ZeroPriceBoundsIgnored`, `ZeroBedsApplied` and `OfficeIsNotResidential` |
| Listings.WhereComplete | backend/api/services/db_service.py:36-93 | every store row the query admits survives the WHERE clause |
| Listings.Execute | backend/api/services/db_service.py:96-100 | the definition of the executor (WHERE, `ORDER BY price ASC`, LIMIT, a negative LIMIT meaning none); its properties are stated by `ExecuteAdmits`, `ExecuteSorted`, `ExecuteBounded` and `ExecuteTakesCheapest` |
| Listings.ExecuteTakesCheapest | backend/api/services/db_service.py:96-100 | an admitted row is missing from the answer only when the LIMIT is non-negative and filled, by rows none dearer than it: the executor returns the cheapest admitted rows |
| Listings.ExecuteAdmits | backend/api/services/db_service.py:96-100 | every row a query returns is a row of the store that its WHERE clause admits |
| Listings.ExecuteBounded | backend/api/services/db_service.py:97-98 | a non-negative LIMIT bounds the number of rows returned |
| Listings.ExecuteSorted | backend/api/services/db_service.py:97 | rows come back in ascending price order |
| Listings.WhereUnique | backend/api/services/db_service.py:47-91 | filtering a store with unique ids keeps the ids unique |
| Listings.ExecuteUnique | backend/api/services/db_service.py:96-100 | over a store with unique ids one query returns each id at most once |
| Listings.AdmittedRowsAreListed | backend/api/services/db_service.py:47-91 | every admitted row is active, has a positive price, obeys the buy/rent rule (rent takes buy rows under 200000, buy takes rent rows over 2000000) and is neither seen nor already found |
| Listings.OfficeIsNotResidential | backend/api/services/db_service.py:85-86 | a residential search for category `Office` matches no row, because the allow-list leaves `Office` out |
| Listings.NoResidentialIsOffice | backend/api/services/db_service.py:86 | no category of the residential allow-list lowercases to `office` |
| Listings.ZeroPriceBoundsIgnored | backend/api/services/db_service.py:59-65 | price bounds of 0 are falsy and constrain nothing |
| Listings.ZeroBedsApplied | backend/api/services/db_service.py:55-57 | `beds = 0` is not None, so it is applied and admits only studios |
| Listings.CityIsSuffixMatch | backend/api/services/db_service.py:67-71 | the city pattern `%city` makes "New Dubai" match a search for "dubai" |
| Results.DiffThresholds | backend/api/services/db_service.py:153-155 | with a positive average, `diff < -15` holds exactly when the price is below 85% of it and `diff > 15` exactly when above 115% |
| Results.Insight | backend/api/services/db_service.py:150-156 | the definition of the price insight: only for an exact item with a positive average and price, from the truncated percentage difference beyond ±15; stated by `InsightIsJustified`, `InsightIsGiven` and `FifteenPercentIsNoInsight` |
| Results.InsightIsJustified | backend/api/services/db_service.py:152-155 | an insight is given only to an exact item with positive average and price; a Great Deal is more than 15% below, a Premium more than 15% above |
| Results.InsightIsGiven | backend/api/services/db_service.py:152-155 | conversely, an exact priced item more than 15% off gets the matching insight, and one within 15% (bounds included) gets none |
| Results.FifteenPercentIsNoInsight | backend/api/services/db_service.py:153-155 | exactly ±15% gives no insight; 15.5% below reports 15 (truncation toward zero), 50% above reports 50 |
| Results.Present | backend/api/services/db_service.py:157-174 | an item keeps the row's id, price, tag and reason; title, description, location, area, city and type are never empty; `beds` is Studio exactly for 0 bedrooms; only exact items carry an insight |
| Search.AppendTagged | backend/api/services/db_service.py:121-122 | the loop appends the rows, tagged, after the list |
| Search.CollectTiers | backend/api/services/db_service.py:95-141 | the tier loops produce `Collected` and issue exactly `IssuedQueries` |
| Search.Collected | backend/api/services/db_service.py:95-141 | the definition of the three tiers: tier 1, then the fallback-area tier while fewer than 5 rows, then the city tier while fewer than 3; stated by `CollectedIsCollection`, `CollectedInTierOrder` and `TierGates` |
| Search.QueryResult | backend/api/services/db_service.py:95-176 | the definition of the outcome: every collected row presented against the average, and `isFallback`; stated by `ResultsExcludeSeen`, `ResultIdsDistinct`, `ResultsWithinPage`, `ResultsInTierOrder` and `FallbackFlag` |
| Search.Finalize | backend/api/services/db_service.py:147-174 | the loop presents every collected item, in order |
| Search.ScanFallback | backend/api/services/db_service.py:176 | the scan is true exactly when some result is not an exact match |
| Search.QueryProperties | backend/api/services/db_service.py:27-176 | the outcome is `QueryResult` against the average of the cache-through stats of the primary city and area; the cache ends as `StatsCacheAfter` |
| Search.Tier1IsCollection | backend/api/services/db_service.py:95-101 | tier 1 is a valid collection: eligible store rows, unseen, distinct ids, within the page |
| Search.FallbackStepIsCollection | backend/api/services/db_service.py:104-141 | a fallback tier that excludes found and seen ids and takes the remaining budget keeps the collection valid |
| Search.CollectedIsCollection | backend/api/services/db_service.py:95-141 | the three tiers together give a valid collection |
| Search.CollectedInTierOrder | backend/api/services/db_service.py:101-141 | the collected list holds tier 1 first, then tier 2, then tier 3; exactly the tier-1 items are exact, and the fallback items carry their tier's reason |
| Search.ResultsExcludeSeen | backend/api/services/db_service.py:88-91 | no returned id is in `seen_ids`, and every returned item presents an eligible store row |
| Search.ResultIdsDistinct | backend/api/services/db_service.py:110-134 | over a store with unique ids, returned ids are pairwise distinct across tiers |
| Search.ResultsWithinPage | backend/api/services/db_service.py:96-137 | with `page_size >= 0`, at most `page_size` results are returned |
| Search.ResultsInTierOrder | backend/api/services/db_service.py:101-141 | the tier-1 rows come first and exactly they are exact matches; tier-2 items carry `fallback.reason` and tier-3 items "More options in {city}" |
| Search.FallbackFlag | backend/api/services/db_service.py:176 | `isFallback` holds exactly when some item is not an exact match, that is when a fallback tier contributed |
| Search.SingleQueryCases | backend/api/services/db_service.py:104-125 | five or more tier-1 rows, or a plan with neither a fallback area nor a primary city, mean exactly one query and tier 1 alone |
| Search.TierGates | backend/api/services/db_service.py:104-125 | a tier-2 query is issued exactly when tier 1 found fewer than 5 rows and the fallback area is set; a tier-3 query exactly when fewer than 3 rows are collected and the city is set; the number of issued queries is one plus the number of tiers that fire |
| Search.ExhaustedBudgetStillQueries | backend/api/services/db_service.py:117-120 | when tier 1 fills a page below 5 rows, the fallback query is still issued, with limit 0, and adds nothing |
| Stats.PricedOf | backend/api/services/db_service.py:220 | the truthy prices are exactly the non-zero prices of the results, in order (the order-preserving filter `FilterMap`); none is zero |
| Stats.PricedOfComplete | backend/api/services/db_service.py:220 | every non-zero price of the results is kept |
| Stats.CalculateResultsStats | backend/api/services/db_service.py:215-236 | the definition of the result-set stats; stated by `ResultsStatsNone` and `ResultsStatsBounds` |
| Stats.ResultsStatsNone | backend/api/services/db_service.py:217-222 | the result-set stats are None exactly for an empty set or one without a truthy price |
| Stats.ResultsStatsBounds | backend/api/services/db_service.py:224-236 | otherwise both counts are the number of results; min and max are the smallest and largest truthy price, each the price of some result; avg is the mean of the truthy prices, and min <= avg <= max |
| Stats.MarketPrices | backend/api/services/db_service.py:248-273 | the aggregated prices are exactly the prices of the rows the aggregate's WHERE clause admits, in store order (`FilterMap`); each is positive |
| Stats.MarketPricesExact | backend/api/services/db_service.py:258-271 | each aggregated price is the price of an admitted store row, and every admitted row's price is aggregated |
| Stats.MarketStats | backend/api/services/db_service.py:248-315 | the definition of the market stats dictionary; stated by `MarketStatsShape` and `BreakdownShape` |
| Stats.MarketStatsShape | backend/api/services/db_service.py:276-315 | the market stats are None exactly when no row is counted; otherwise the label is area, then city, then "All UAE", the counts are the number of aggregated prices; min, max, avg and total_value are their minimum, maximum, mean and sum, with 0 < min <= avg <= max; a breakdown is present exactly when neither city nor area is given, and it is then the top-five `Breakdown` of the store |
| Stats.MarketStatsAttained | backend/api/services/db_service.py:247-271 | the market min and max are each the price of a listing the aggregate's WHERE clause admits |
| Stats.Groups | backend/api/services/db_service.py:297-301 | as many aggregate rows as there are distinct city names |
| Stats.GroupsShape | backend/api/services/db_service.py:295-301 | before ordering there is one group per city, each counting at least one row, with min <= avg <= max |
| Stats.BreakdownShape | backend/api/services/db_service.py:295-315 | the breakdown has one row per counted city up to five, ordered by descending count, one per city; every row names a counted city and holds the count, mean, minimum and maximum of that city's prices |
| Stats.BreakdownTopFive | backend/api/services/db_service.py:297-303 | a counted city missing from the breakdown is missing because five cities with at least as many rows fill it |
| Stats.Breakdown | backend/api/services/db_service.py:295-315 | the definition of `GROUP BY c.name ORDER BY count DESC LIMIT 5`; stated by `BreakdownShape` and `BreakdownTopFive` |
| Stats.GetPropertyStats | backend/api/services/db_service.py:238-318 | returns `StatsThroughCache` and leaves the cache as `StatsCacheAfter` |
| Stats.StatsThroughCache | backend/api/services/db_service.py:238-318 | the definition of the answer of `get_property_stats`: the live cached value, else the aggregate; stated by `StatsHit`, `StatsNoneCachesNothing` and `StatsStableWithinTtl` |
| Stats.StatsCacheAfter | backend/api/services/db_service.py:242-317 | the definition of the cache after `get_property_stats`: the lookup's lazy expiry, then a computed answer stored for 3600 seconds; stated by the same lemmas |
| Stats.StatsHit | backend/api/services/db_service.py:242-245 | a live cached value under `stats_{city}_{area}` is returned and the cache is left unchanged |
| Stats.StatsNoneCachesNothing | backend/api/services/db_service.py:276-277 | with nothing cached and no row counted the answer is None and nothing gets cached for the key |
| Stats.StatsStableWithinTtl | backend/api/services/db_service.py:317 | within 3600 seconds of a computed answer, the same request gets the same answer even if the store changed |
| Stats.StatsKeyDistinguishes | backend/api/services/db_service.py:242 | different (city, area) requests get different cache keys when the city has no `_` and neither value is the literal "None" |
| AiService.LastMention | backend/api/services/ai_service.py:84-88 | finds the most recent history message whose lowercased text contains "my name is ", or reports that none does |
| AiService.NameIn | backend/api/services/ai_service.py:87 | the definition of the name taken from a mention: the text after the last "is ", stripped of spaces, periods and exclamation marks; stated by `NameInShape` |
| AiService.NameInShape | backend/api/services/ai_service.py:87 | the extracted name contains no "is " and neither starts nor ends with a space, period or exclamation mark |
| AiService.UserNameFor | backend/api/services/ai_service.py:81-88 | a truthy context `user_name` takes precedence; otherwise the name comes from the most recent mention, or is empty |
| AiService.ExtractUserName | backend/api/services/ai_service.py:83-88 | the reverse loop that stops at the first mention it meets computes `UserNameFor` |
| AiService.CapitalisedMentionDetected | backend/api/services/ai_service.py:85-86 | detection lowercases, so "My Name Is Sara" is a mention |
| AiService.CapitalisedMentionNotSplit | backend/api/services/ai_service.py:87 | the split is case-sensitive, so from "My Name Is Sara" the whole text is taken as the name |
| AiService.LastSix | backend/api/services/ai_service.py:98 | `history[-6:]` is the last min(6, n) entries |
| AiService.AssembleMessages | backend/api/services/ai_service.py:76-102 | the appending steps build exactly `Messages` |
| AiService.BuildHeader | backend/api/services/ai_service.py:76-96 | the system prompt, the name message when a name is found, and the session-state message, appended in that order, are exactly `Header` |
| AiService.Header | backend/api/services/ai_service.py:76-96 | the definition of the leading system messages; stated by `MessagesShape` |
| AiService.Messages | backend/api/services/ai_service.py:76-102 | the definition of the message list of the intent call; stated by `MessagesShape` |
| AiService.AppendHistory | backend/api/services/ai_service.py:98-100 | the copy loop appends the trimmed history to the messages, in order |
| AiService.MessagesShape | backend/api/services/ai_service.py:76-102 | the system prompt is first, then the name message exactly when there is a name, then the state message, then the last six history entries in order, and the user message last |
| AiService.GetAiIntent | backend/api/services/ai_service.py:70-115 | with no client, or when the call raises, the intent is of type error with the fixed or "AI Error: " message; otherwise it is the model's reply |
| AiService.SimpleResponse | backend/api/services/ai_service.py:117-135 | the fixed greeting without a client, the fixed question on failure, otherwise a reply with no surrounding whitespace |
| AiService.SimpleResponseStripped | backend/api/services/ai_service.py:133 | a reply is relayed with exactly its leading and trailing whitespace cut: the result occurs in the reply at some offset with only whitespace before and after it |
| AiService.NonEmptyDeltas | backend/api/services/ai_service.py:182-184 | the relayed deltas are exactly the non-empty deltas, in order (`FilterMap`) |
| AiService.RelayDeltas | backend/api/services/ai_service.py:182-184 | the relay loop yields exactly the non-empty deltas in order |
| AiService.NarrativeChunksShape | backend/api/services/ai_service.py:137-186 | without a client the narration is the single "{name}, I found {n} properties for you."; otherwise the non-empty deltas, followed by the curated sentence if the stream failed |
| AiService.NarrativeChunks | backend/api/services/ai_service.py:137-186 | the definition of the chunks `stream_professional_response` yields; stated by `NarrativeChunksShape` |
| AiService.Snippets | backend/api/services/ai_service.py:150-153 | one snippet per leading result, at most five |
| AiService.BuildSnippets | backend/api/services/ai_service.py:150-153 | the loop builds exactly `Snippets` |
| AiService.SnippetTags | backend/api/services/ai_service.py:151-153 | at most five snippets; each starts with "[EXACT MATCH]" exactly when its item is an exact match, otherwise with "[STRATEGIC RECOMMENDATION]" |
| AiService.StatsNarrative | backend/api/services/ai_service.py:188-222 | the analysing sentence without a client or stats, the market sentence when the call raises, otherwise a stripped reply |
| AiService.StatsNarrativeStripped | backend/api/services/ai_service.py:219 | with stats at hand, a reply is relayed with exactly its leading and trailing whitespace cut |
| Views.IsRealEstate | backend/api/views.py:11-24 | the definition of the keyword gate: some keyword occurs in the lowercased query; stated by `GateIgnoresCase`, `GateIsMonotone` and `GateSample` |
| Views.GateIgnoresCase | backend/api/views.py:24 | the keyword gate gives the same answer for a query and its lowercase form |
| Views.GateIsMonotone | backend/api/views.py:34 | text added before or after a real-estate query never closes the gate |
| Views.GateSample | backend/api/views.py:11 | "2BR Villa in JBR" passes the gate through the keyword "villa" |
| Views.MergeLegacy | backend/api/views.py:42-44 | the merge never overwrites a key already in `filters`, adds only legacy keys taken from the request, and adds every legacy key the request has |
| Views.HasMoreMeansFullPage | backend/api/views.py:74 | since a search returns at most a page, `hasMore` is false exactly for a short page |
| Views.HasMore | backend/api/views.py:74 | the definition of `hasMore`: the page is exactly full; stated by `HasMoreMeansFullPage` |
| Views.FormatResponse | backend/api/views.py:95-103 | the definition of `format_response`; stated by `FormatFillsCount` |
| Views.FormatFillsCount | backend/api/views.py:95-103 | a non-empty text comes back without any `{count}` placeholder; an empty text comes back empty |
| Views.IntToStringChars | backend/api/views.py:102 | `str(count)` is non-empty and made of digits and `-`, so it cannot recreate a placeholder |
| Views.BuildStatsTable | backend/api/views.py:144-151 | the loop builds exactly the stats table rows |
| Views.StatsTableShape | backend/api/views.py:144-151 | the table is empty without stats, has one row per breakdown city (named in order) when the breakdown is non-empty, and is otherwise the single row of the area |
| Views.BuildSearchTable | backend/api/views.py:190-198 | the loop builds exactly the summary table rows |
| Views.SearchTableShape | backend/api/views.py:190-198 | the table is non-empty exactly when a table was asked for and there are results; it has one row per leading result up to ten: the bedrooms text, the truncated price with thousands separators, the first 30 characters of the location and the first 40 of the title followed by "..." |
| Views.RelayChunks | backend/api/views.py:186-187 | every narration chunk becomes one text chunk frame, in order |
| Views.StreamStats | backend/api/views.py:135-153 | the stats frame carries the cache-through stats of the primary filter, their narration and their table; the cache ends as `StatsCacheAfter` |
| Views.StreamSearch | backend/api/views.py:163-200 | after the intent frame come the results of a page of ten with the session's seen ids, the narration and the final frame; the cache ends as `StatsCacheAfter` |
| Views.ChatStreamGenerator | backend/api/views.py:110-203 | the generator emits exactly `ChatFrames` of the intent, the cache-through stats and the search outcome; the cache changes only on the stats path and on a search that returned |
| Views.ChatFrames | backend/api/views.py:110-203 | the definition of the frame sequence of one chat request; stated by `OneTerminalFrameLast`, `ErrorIntentIsOneFrame`, `GreetingComesFirst`, `ConversationalNeverSearches`, `StatsStream`, `SearchStreamOrder` and `FailedSearchHasNoFinal` |
| Views.OneTerminalFrameLast | backend/api/views.py:110-203 | every stream is non-empty and ends with exactly one terminal frame (final or error), which is its last |
| Views.ErrorIntentIsOneFrame | backend/api/views.py:123-125 | an error intent, including a missing client or a failed call, is a stream of exactly one error frame |
| Views.GreetingComesFirst | backend/api/views.py:128-129 | any other intent with a response starts with the text chunk `response + " "` |
| Views.ConversationalNeverSearches | backend/api/views.py:131-133 | `info` and `clarification` end with a bare final frame, have at most two frames, and never send intent, results or stats frames |
| Views.StatsStream | backend/api/views.py:135-155 | a stats intent ends with one stats frame carrying the narration and the comparison table, then a bare final, preceded only by text |
| Views.SearchStreamOrder | backend/api/views.py:163-200 | a search that returned sends the greeting, then intent, then results, then the narration chunks in order, then final with the summary table, and nothing else |
| Views.FailedSearchHasNoFinal | backend/api/views.py:202-203 | when waiting for the search fails, the intent frame is followed by one "System Speed Error: " frame and no final frame is sent |
| Views.ResultsFrameIsTheFetch | backend/api/views.py:173 | the only results frame of any stream carries the fetched outcome |
| Views.StreamedResultsAreNew | backend/api/views.py:160-173 | the results a chat search streams hold at most ten items and none of the session's seen ids |
| ChatApp.Step | frontend/src/ChatApp.js:134-178 | the definition of how one event changes the bot message; stated by `ChunksConcatenate`, `StepExtendsSeen`, `FinalRecordsResults` and the exchange lemmas |
| ChatApp.Fold | frontend/src/ChatApp.js:123-178 | the definition of the events applied in arrival order; stated by `SeenIdsOnlyGrow` and the exchange lemmas |
| ChatApp.HandleLine | frontend/src/ChatApp.js:131-178 | one line changes the state by the events it parses to |
| ChatApp.ConsumeStream | frontend/src/ChatApp.js:123-192 | the read loop folds the events of all lines, in order, and ends with loading off |
| ChatApp.OtherLinesIgnored | frontend/src/ChatApp.js:131 | lines not starting with "data: " produce no event |
| ChatApp.EventsComeFromDataLines | frontend/src/ChatApp.js:131-133 | every event is the successful parse of a "data: " line, so there are no more events than lines |
| ChatApp.ChunksConcatenate | frontend/src/ChatApp.js:151-153 | text chunks append their contents to the message in arrival order and change nothing else |
| ChatApp.StepExtendsSeen | frontend/src/ChatApp.js:161-171 | one event keeps the seen ids duplicate-free and keeps the old ones as their prefix |
| ChatApp.SeenIdsOnlyGrow | frontend/src/ChatApp.js:164-171 | over any stream the seen ids never shrink: the old ones stay in order as a prefix, with no duplicates |
| ChatApp.FinalRecordsResults | frontend/src/ChatApp.js:164-170 | a final frame adds the id of every held result to the seen ids |
| ChatApp.ErrorExchange | frontend/src/ChatApp.js:155-176 | after an error intent (no client, a failed call, an `error` plan) a response is shown with type error, loading off, no results, the seen ids and filters as they were; the missing-key and "AI Error: " texts are the ones shown; an error frame without text is thrown and swallowed, leaving the message as it started |
| ChatApp.SearchExchange | frontend/src/ChatApp.js:123-171 | after a search that returned, the message is the greeting followed by the narration, the results are the fetched ones, the filter is the primary one, the status is "Analysis complete.", loading is off and every result id is seen |
| ChatApp.FailedSearchExchange | frontend/src/ChatApp.js:155-159 | after a failed search the message is the "System Speed Error: " text with type error, nothing is held, and the seen ids are unchanged |
| ChatApp.ShownListingsNotRepeated | frontend/src/ChatApp.js:164-171 | no listing one chat search showed is streamed again by the next search, which sends the grown seen ids |
| ChatApp.Phrases | frontend/src/ChatApp.js:263 | the phrases are exactly the trimmed pieces with text, in order (`FilterMap`), each non-empty and trimmed |
| ChatApp.PhrasesFirst | frontend/src/ChatApp.js:263 | the first phrase is the first piece with text, trimmed |
| ChatApp.PhrasesAvoid | frontend/src/ChatApp.js:263 | trimming and dropping empty pieces keeps out every separator the pieces avoid |
| ChatApp.FirstPhrases | frontend/src/ChatApp.js:263-270 | the first two phrases of pieces free of the separators are trimmed, non-empty and free of them too |
| ChatApp.ExtractFeatures | frontend/src/ChatApp.js:258-272 | at most two features |
| ChatApp.FeaturesShape | frontend/src/ChatApp.js:258-272 | a list gives its first two entries; a non-empty text gives the first two phrases of its pieces split at `,;|/`, which are trimmed, non-empty and free of those; otherwise the description's first sentence gives the first two phrases of its pieces split at `,;|`; with neither, nothing |
| ChatApp.PositivePrices | frontend/src/ChatApp.js:292 | the kept prices are exactly the positive prices of the results, in order (`FilterMap`) |
| ChatApp.HighlightsBounds | frontend/src/ChatApp.js:291-303 | the count is the number of results; with a positive price the low and high are prices of results bounding every positive price, and the average is the mean of the positive prices rounded half up (`avg - 0.5 <= mean < avg + 0.5`); otherwise all three are 0 |
| ChatApp.ComputeHighlights | frontend/src/ChatApp.js:291-303 | the definition of the computed key highlights; stated by `HighlightsBounds` |
| Seqs.Dedupe | frontend/src/ChatApp.js:169 | `[...new Set(xs)]` has no duplicates and the same elements as `xs` |
| Seqs.DedupeExtends | frontend/src/ChatApp.js:169 | deduplicating `a + b` keeps the deduplication of `a` as its prefix |
| Seqs.FilterMap | frontend/src/ChatApp.js:263 | `[f(x) for x in s if keep(x)]`: no longer than its input |
| Seqs.FilterMapIndexed | frontend/src/ChatApp.js:263 | the filter is order preserving: its i-th element is `f` of the i-th kept element, the kept positions ascend, and every kept position is among them |
| Seqs.FilterMapMember | frontend/src/ChatApp.js:292 | every element of the filter is `f` of a kept element of the input |
| Seqs.FilterMapFirst | frontend/src/ChatApp.js:263 | the first element of the filter comes from the first kept element |
| Seqs.TakeSortedOmits | backend/api/services/db_service.py:97-98 | an element a LIMIT leaves out of a sorted sequence has a key no smaller than every element kept, and the LIMIT is filled |
| Seqs.SortByPermutes | backend/api/services/db_service.py:97 | the price ordering is a permutation of the filtered rows |
| Seqs.SortBySorted | backend/api/services/db_service.py:97 | the price ordering is ascending |
| Strings.WithThousandsDropCommas | backend/api/views.py:195 | `f"{n:,}"` is the decimal digits of `n` with commas inserted, so removing the commas gives `str(n)` back |
| Strings.ReplaceAllRemoves | backend/api/views.py:102 | replacing a pattern by text that shares no character with it leaves no occurrence of the pattern |
| Strings.StripIsExact | backend/api/services/ai_service.py:133 | `strip` removes exactly a leading and a trailing run of the stripped characters, and what is left starts and ends outside them |
| Numbers.Trunc | backend/api/services/db_service.py:154-155 | `int(x)` truncates toward zero |
| Numbers.RoundHalfUp | frontend/src/ChatApp.js:294 | `Math.round(x)` lies within half of `x` |
| Numbers.MeanBetweenMinAndMax | backend/api/services/db_service.py:232-234 | the mean of a non-empty list lies between its minimum and maximum |

## Left out

- SQLite access (`get_db_connection`, `execute_query`) and the SQL text. The WHERE clauses are modelled as predicates over a sequence of joined rows, so SQL errors and database exceptions are not modelled.
- `LIKE` patterns: the model treats the query's text literally. A `%` or `_` inside a user's city or area is not read as a wildcard.
- Lowercasing and trimming are ASCII only. `LOWER` in SQL, `str.lower` and `trim` are all modelled that way.
- SQL leaves the order of equal prices open. The model fixes one: store order among equal prices (a stable sort). Among equal counts, the city breakdown is ordered by first appearance.
- The thread pool and the 7-second deadline of `db_future.result(timeout=7)` are not modelled. Waiting is an input `failure`.
- Views.ChatStreamGenerator: when waiting fails, the search thread keeps running and sets the stats cache later. The model leaves the cache unchanged on that path.
- Views.ChatStreamGenerator: an exception raised while relaying the narration or building the table would also end in a "System Speed Error" frame. The model has no such exception, because `stream_professional_response` catches its own failures.
- The language-model calls and the prompt texts are not modelled. Their outcome is an input (`Reply`, `Narration`), and the system prompt of the intent call is a parameter.
- Django request parsing, `JsonResponse`, `StreamingHttpResponse` and the route table are not modelled.
- The `hello`, `stats` and `clear_cache` endpoints are left out. They only forward to modelled operations.
- The non-streamed answer of `chat` to an empty message is left out. So is its normalised cache key, which the generator never uses.
- The search endpoint's result cache keyed by `json.dumps(filters)`, and its summary text, are not modelled. JSON encoding of frames and keys is not modelled either. The client receives the server's frames as values, through `parse`.
- Views.SearchTableShape: the beds cell is modelled as the text Python would print. In the JSON sent, a bedroom count is a number.
- Prices are exact reals, not IEEE floats. `int()` is truncation toward zero, and `Math.round` is floor of `x + 0.5`.
- A missing string field and the empty string are the same in the model wherever the code only tests truthiness. One consequence: `filters.get('area', 'Dubai')` with an empty area yields "Dubai" in the model, but `""` in the code. Another: the stats cache keys `stats_None_…` and `stats__…` coincide in the model.
- `thumbnail`, `source` and `sourceUrl` are copied through untouched, so they are left out of the result items.
- The client's display-only state is not modelled: the `search_stats` and `key_highlights` payloads, `lastResultsSummary`, `toLocaleString`, rendering and `formatAED`.
- The client's building of `history` from the displayed messages is not modelled. The history it sends in `context` reaches the server, which receives it as the input `ctx.history` (name extraction and the last six messages).
- Lines split across two network reads are not modelled. The client model reads a stream already cut into lines. The "Connection Error" message for a failed `fetch` is not modelled either.
- Unreachable code is not modelled: the block after `return` in `query_properties`, the duplicate `except` of the generator, and the code after `return` in `chat`.
