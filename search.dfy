/** `query_properties` of backend/api/services/db_service.py: up to three
    tiers of queries against the listings store, the collected rows tagged
    by tier, and the presented results with their price insights. */
module Search {
  import opened Wrappers
  import opened Seqs
  import opened Listings
  import opened Results
  import opened CacheService
  import opened Stats

  /** The return value: `results` and `isFallback`. */
  datatype SearchOutcome = SearchOutcome(results: seq<ResultItem>, isFallback: bool)

  /** A tier-2 search runs while tier 1 found fewer than this many rows. */
  const StrategicThreshold: int := 5
  /** A tier-3 search runs while fewer than this many rows were collected. */
  const GenericThreshold: int := 3

  function TaggedId(t: Tagged): int
  {
    t.row.id
  }

  /** `[r['row']['id'] for r in results_list]`. */
  function RowIds(items: seq<Tagged>): (ids: seq<int>)
    ensures |ids| == |items|
    ensures forall i :: 0 <= i < |items| ==> ids[i] == items[i].row.id
  {
    seq(|items|, i requires 0 <= i < |items| => items[i].row.id)
  }

  /** `[{"row": r, "exact": exact, "fallbackReason": reason} for r in rows]`. */
  function Tag(rows: seq<Listing>, exact: bool, reason: Option<string>): (items: seq<Tagged>)
    ensures |items| == |rows|
    ensures forall i :: 0 <= i < |rows| ==> items[i] == Tagged(rows[i], exact, reason)
  {
    seq(|rows|, i requires 0 <= i < |rows| => Tagged(rows[i], exact, reason))
  }

  function Tier1Query(plan: SearchPlan, pageSize: int, seen: seq<int>): Query
  {
    Query(plan.primary, seen, [], pageSize)
  }

  predicate Tier2Fires(plan: SearchPlan, got: seq<Tagged>)
  {
    |got| < StrategicThreshold && plan.fallback.area != ""
  }

  /** The primary filter with the fallback area, excluding what was found. */
  function Tier2Query(plan: SearchPlan, pageSize: int, seen: seq<int>, got: seq<Tagged>): Query
  {
    Query(plan.primary.(area := plan.fallback.area), seen, RowIds(got) + seen, pageSize - |got|)
  }

  predicate Tier3Fires(plan: SearchPlan, got: seq<Tagged>)
  {
    |got| < GenericThreshold && plan.primary.city != ""
  }

  /** The primary filter without its area, excluding what was found. */
  function Tier3Query(plan: SearchPlan, pageSize: int, seen: seq<int>, got: seq<Tagged>): Query
  {
    Query(plan.primary.(area := ""), seen, RowIds(got) + seen, pageSize - |got|)
  }

  function Tier3Reason(plan: SearchPlan): Option<string>
  {
    Some("More options in " + plan.primary.city)
  }

  function Tier1(store: seq<Listing>, plan: SearchPlan, pageSize: int, seen: seq<int>): seq<Tagged>
  {
    Tag(Execute(store, Tier1Query(plan, pageSize, seen)), true, None)
  }

  function AfterTier2(store: seq<Listing>, plan: SearchPlan, pageSize: int, seen: seq<int>, got: seq<Tagged>): seq<Tagged>
  {
    if Tier2Fires(plan, got) then
      got + Tag(Execute(store, Tier2Query(plan, pageSize, seen, got)), false, plan.fallback.reason)
    else got
  }

  function AfterTier3(store: seq<Listing>, plan: SearchPlan, pageSize: int, seen: seq<int>, got: seq<Tagged>): seq<Tagged>
  {
    if Tier3Fires(plan, got) then
      got + Tag(Execute(store, Tier3Query(plan, pageSize, seen, got)), false, Tier3Reason(plan))
    else got
  }

  /** `results_list` after the three tiers. */
  function Collected(store: seq<Listing>, plan: SearchPlan, pageSize: int, seen: seq<int>): seq<Tagged>
  {
    var t1 := Tier1(store, plan, pageSize, seen);
    AfterTier3(store, plan, pageSize, seen, AfterTier2(store, plan, pageSize, seen, t1))
  }

  /** The queries issued, in order. */
  function IssuedQueries(store: seq<Listing>, plan: SearchPlan, pageSize: int, seen: seq<int>): seq<Query>
  {
    var t1 := Tier1(store, plan, pageSize, seen);
    var t2 := AfterTier2(store, plan, pageSize, seen, t1);
    [Tier1Query(plan, pageSize, seen)]
    + (if Tier2Fires(plan, t1) then [Tier2Query(plan, pageSize, seen, t1)] else [])
    + (if Tier3Fires(plan, t2) then [Tier3Query(plan, pageSize, seen, t2)] else [])
  }

  function PresentAll(items: seq<Tagged>, avg: real): (r: seq<ResultItem>)
    ensures |r| == |items|
    ensures forall i :: 0 <= i < |items| ==> r[i] == Present(items[i], avg)
  {
    seq(|items|, i requires 0 <= i < |items| => Present(items[i], avg))
  }

  /** `stats['prices']['avg'] if stats else 0`. */
  function AvgOf(stats: Option<StatsSnapshot>): real
  {
    if stats.Some? then stats.value.avg else 0.0
  }

  /** What `query_properties` returns, given the market average `avg`. */
  function QueryResult(store: seq<Listing>, plan: SearchPlan, pageSize: int, seen: seq<int>, avg: real): SearchOutcome
  {
    var results := PresentAll(Collected(store, plan, pageSize, seen), avg);
    SearchOutcome(results, AnyFallback(results))
  }

  // ---------------------------------------------------------------------------
  // The imperative form

  /** `for r in rows: results_list.append({...})`. */
  method AppendTagged(list: seq<Tagged>, rows: seq<Listing>, exact: bool, reason: Option<string>)
    returns (out: seq<Tagged>)
    ensures out == list + Tag(rows, exact, reason)
  {
    out := list;
    var i := 0;
    while i < |rows|
      invariant 0 <= i <= |rows|
      invariant out == list + Tag(rows[..i], exact, reason)
    {
      assert Tag(rows[..i + 1], exact, reason) == Tag(rows[..i], exact, reason) + [Tagged(rows[i], exact, reason)];
      out := out + [Tagged(rows[i], exact, reason)];
      i := i + 1;
    }
    assert rows[..i] == rows;
  }

  /** The three tiers, one query after another. */
  method CollectTiers(store: seq<Listing>, plan: SearchPlan, pageSize: int, seen: seq<int>)
    returns (items: seq<Tagged>, queries: seq<Query>)
    ensures items == Collected(store, plan, pageSize, seen)
    ensures queries == IssuedQueries(store, plan, pageSize, seen)
  {
    var q1 := Tier1Query(plan, pageSize, seen);
    items := AppendTagged([], Execute(store, q1), true, None);
    assert items == Tier1(store, plan, pageSize, seen);
    ghost var t1 := items;
    queries := [q1];
    if |items| < StrategicThreshold && plan.fallback.area != "" {
      var q2 := Tier2Query(plan, pageSize, seen, items);
      items := AppendTagged(items, Execute(store, q2), false, plan.fallback.reason);
      queries := queries + [q2];
    }
    assert items == AfterTier2(store, plan, pageSize, seen, t1);
    ghost var t2 := items;
    if |items| < GenericThreshold && plan.primary.city != "" {
      var q3 := Tier3Query(plan, pageSize, seen, items);
      items := AppendTagged(items, Execute(store, q3), false, Tier3Reason(plan));
      queries := queries + [q3];
    }
    assert items == AfterTier3(store, plan, pageSize, seen, t2);
  }

  /** `for item in results_list: final_results.append({...})`. */
  method Finalize(items: seq<Tagged>, avg: real) returns (final: seq<ResultItem>)
    ensures final == PresentAll(items, avg)
  {
    final := [];
    var i := 0;
    while i < |items|
      invariant 0 <= i <= |items|
      invariant final == PresentAll(items[..i], avg)
    {
      final := final + [Present(items[i], avg)];
      i := i + 1;
    }
    assert items[..i] == items;
  }

  /** `any(not r['isExactMatch'] for r in final_results)`. */
  method ScanFallback(final: seq<ResultItem>) returns (anyFallback: bool)
    ensures anyFallback == AnyFallback(final)
  {
    anyFallback := false;
    var i := 0;
    while i < |final|
      invariant 0 <= i <= |final|
      invariant anyFallback <==> exists j :: 0 <= j < i && !final[j].isExactMatch
    {
      anyFallback := anyFallback || !final[i].isExactMatch;
      i := i + 1;
    }
  }

  /** `query_properties(plan, page, page_size, seen_ids)`. The market
      average comes from `get_property_stats` on the primary city and area,
      through the cache. `page` takes no part. */
  method QueryProperties(cache: SimpleCache<StatsSnapshot>, store: seq<Listing>, plan: SearchPlan,
                         page: int, pageSize: int, seen: seq<int>, now: real)
    returns (out: SearchOutcome)
    modifies cache
    ensures out == QueryResult(store, plan, pageSize, seen,
                               AvgOf(StatsThroughCache(old(cache.data), store, plan.primary.city, plan.primary.area, now)))
    ensures cache.data == StatsCacheAfter(old(cache.data), store, plan.primary.city, plan.primary.area, now)
  {
    var items, _ := CollectTiers(store, plan, pageSize, seen);
    var stats := GetPropertyStats(cache, store, plan.primary.city, plan.primary.area, now);
    var avg := if stats.Some? then stats.value.avg else 0.0;
    var final := Finalize(items, avg);
    var anyFallback := ScanFallback(final);
    out := SearchOutcome(final, anyFallback);
  }

  // ---------------------------------------------------------------------------
  // What holds of every collected list

  /** A row every tier's query admits: listed, active, priced, under the
      buy/rent rule of the primary filter, and not seen before. */
  predicate Eligible(plan: SearchPlan, seen: seq<int>, r: Listing)
  {
    r.status == "active" && r.price > 0.0 && TypeRule(EffectiveType(plan.primary), r) && r.id !in seen
  }

  predicate Collection(store: seq<Listing>, plan: SearchPlan, pageSize: int, seen: seq<int>, items: seq<Tagged>)
  {
    && (forall i :: 0 <= i < |items| ==> items[i].row in store && Eligible(plan, seen, items[i].row))
    && (pageSize >= 0 ==> |items| <= pageSize)
    && (UniqueIds(store) ==> DistinctBy(items, TaggedId))
  }

  lemma Tier1IsCollection(store: seq<Listing>, plan: SearchPlan, pageSize: int, seen: seq<int>)
    ensures Collection(store, plan, pageSize, seen, Tier1(store, plan, pageSize, seen))
  {
    var q := Tier1Query(plan, pageSize, seen);
    var rows := Execute(store, q);
    ExecuteAdmits(store, q);
    if pageSize >= 0 {
      ExecuteBounded(store, q);
    }
    if UniqueIds(store) {
      ExecuteUnique(store, q);
      var items := Tier1(store, plan, pageSize, seen);
      forall i, j | 0 <= i < j < |items|
        ensures TaggedId(items[i]) != TaggedId(items[j])
      {
        assert items[i].row == rows[i] && items[j].row == rows[j];
      }
    }
  }

  /** A fallback tier keeps the collection valid: its query carries the
      seen ids, excludes the ids collected so far, keeps the primary
      filter's type, and is limited to the remaining budget. */
  lemma FallbackStepIsCollection(store: seq<Listing>, plan: SearchPlan, pageSize: int, seen: seq<int>,
                                 got: seq<Tagged>, q: Query, exact: bool, reason: Option<string>)
    requires Collection(store, plan, pageSize, seen, got)
    requires q.seen == seen && q.found == RowIds(got) + seen && q.limit == pageSize - |got|
    requires EffectiveType(q.filter) == EffectiveType(plan.primary)
    ensures Collection(store, plan, pageSize, seen, got + Tag(Execute(store, q), exact, reason))
  {
    var rows := Execute(store, q);
    var items := got + Tag(rows, exact, reason);
    ExecuteAdmits(store, q);
    if pageSize >= 0 {
      ExecuteBounded(store, q);
    }
    forall i | 0 <= i < |items|
      ensures items[i].row in store && Eligible(plan, seen, items[i].row)
    {
      if i >= |got| {
        assert items[i].row == rows[i - |got|];
      }
    }
    if UniqueIds(store) {
      ExecuteUnique(store, q);
      forall i, j | 0 <= i < j < |items|
        ensures TaggedId(items[i]) != TaggedId(items[j])
      {
        if j >= |got| {
          assert items[j].row == rows[j - |got|];
          if i >= |got| {
            assert items[i].row == rows[i - |got|];
          } else {
            assert RowIds(got)[i] == items[i].row.id;
            assert items[j].row.id !in RowIds(got) + seen;
          }
        }
      }
    }
  }

  lemma CollectedIsCollection(store: seq<Listing>, plan: SearchPlan, pageSize: int, seen: seq<int>)
    ensures Collection(store, plan, pageSize, seen, Collected(store, plan, pageSize, seen))
  {
    var t1 := Tier1(store, plan, pageSize, seen);
    Tier1IsCollection(store, plan, pageSize, seen);
    if Tier2Fires(plan, t1) {
      FallbackStepIsCollection(store, plan, pageSize, seen, t1, Tier2Query(plan, pageSize, seen, t1),
                               false, plan.fallback.reason);
    }
    var t2 := AfterTier2(store, plan, pageSize, seen, t1);
    if Tier3Fires(plan, t2) {
      FallbackStepIsCollection(store, plan, pageSize, seen, t2, Tier3Query(plan, pageSize, seen, t2),
                               false, Tier3Reason(plan));
    }
  }

  // ---------------------------------------------------------------------------
  // Properties of the returned results

  /** No id of `seen_ids` is returned, and every returned item presents an
      active, priced row of the store under the primary buy/rent rule. */
  lemma ResultsExcludeSeen(store: seq<Listing>, plan: SearchPlan, pageSize: int, seen: seq<int>, avg: real)
    ensures var out := QueryResult(store, plan, pageSize, seen, avg);
      forall i :: 0 <= i < |out.results| ==> out.results[i].id !in seen
    ensures var items := Collected(store, plan, pageSize, seen);
      forall i :: 0 <= i < |items| ==> items[i].row in store && Eligible(plan, seen, items[i].row)
  {
    CollectedIsCollection(store, plan, pageSize, seen);
  }

  /** Over a store with unique ids, no id is returned twice, across all tiers. */
  lemma ResultIdsDistinct(store: seq<Listing>, plan: SearchPlan, pageSize: int, seen: seq<int>, avg: real)
    requires UniqueIds(store)
    ensures var out := QueryResult(store, plan, pageSize, seen, avg);
      forall i, j :: 0 <= i < j < |out.results| ==> out.results[i].id != out.results[j].id
  {
    CollectedIsCollection(store, plan, pageSize, seen);
    var items := Collected(store, plan, pageSize, seen);
    assert forall i, j :: 0 <= i < j < |items| ==> TaggedId(items[i]) != TaggedId(items[j]);
  }

  /** With a non-negative page size, no more than a page is returned. */
  lemma ResultsWithinPage(store: seq<Listing>, plan: SearchPlan, pageSize: int, seen: seq<int>, avg: real)
    requires pageSize >= 0
    ensures |QueryResult(store, plan, pageSize, seen, avg).results| <= pageSize
  {
    CollectedIsCollection(store, plan, pageSize, seen);
  }

  /** Appending a tier keeps what was collected as a prefix and tags every
      new item with the tier's flag and reason. */
  lemma AppendedTier(got: seq<Tagged>, rows: seq<Listing>, exact: bool, reason: Option<string>)
    ensures var x := got + Tag(rows, exact, reason);
      && x[..|got|] == got
      && forall i :: |got| <= i < |x| ==> x[i].exact == exact && x[i].reason == reason
  {
    var x := got + Tag(rows, exact, reason);
    assert forall i :: |got| <= i < |x| ==> x[i] == Tag(rows, exact, reason)[i - |got|];
  }

  /** The collected items, tier by tier. */
  lemma CollectedInTierOrder(store: seq<Listing>, plan: SearchPlan, pageSize: int, seen: seq<int>)
    ensures var t1 := Tier1(store, plan, pageSize, seen);
      var t2 := AfterTier2(store, plan, pageSize, seen, t1);
      var items := Collected(store, plan, pageSize, seen);
      && |t1| <= |t2| <= |items|
      && items[..|t1|] == t1
      && (forall i :: 0 <= i < |items| ==> (items[i].exact <==> i < |t1|))
      && (forall i :: |t1| <= i < |t2| ==> items[i].reason == plan.fallback.reason)
      && (forall i :: |t2| <= i < |items| ==> items[i].reason == Tier3Reason(plan))
  {
    var t1 := Tier1(store, plan, pageSize, seen);
    var t2 := AfterTier2(store, plan, pageSize, seen, t1);
    var items := Collected(store, plan, pageSize, seen);
    assert forall i :: 0 <= i < |t1| ==> t1[i].exact;
    if Tier2Fires(plan, t1) {
      AppendedTier(t1, Execute(store, Tier2Query(plan, pageSize, seen, t1)), false, plan.fallback.reason);
    }
    assert t2[..|t1|] == t1;
    assert forall i :: |t1| <= i < |t2| ==> !t2[i].exact && t2[i].reason == plan.fallback.reason;
    if Tier3Fires(plan, t2) {
      AppendedTier(t2, Execute(store, Tier3Query(plan, pageSize, seen, t2)), false, Tier3Reason(plan));
    }
    assert items[..|t2|] == t2;
    assert forall i :: 0 <= i < |t2| ==> items[i] == t2[i];
    assert forall i :: 0 <= i < |t1| ==> t2[i] == t1[i];
  }

  /** Results come tier by tier: the tier-1 rows first, exactly those are
      exact matches, then the tier-2 rows with the plan's fallback reason,
      then the tier-3 rows with "More options in <city>". */
  lemma ResultsInTierOrder(store: seq<Listing>, plan: SearchPlan, pageSize: int, seen: seq<int>, avg: real)
    ensures var t1 := Tier1(store, plan, pageSize, seen);
      var t2 := AfterTier2(store, plan, pageSize, seen, t1);
      var out := QueryResult(store, plan, pageSize, seen, avg);
      && |t1| <= |t2| <= |out.results|
      && out.results[..|t1|] == PresentAll(t1, avg)
      && (forall i :: 0 <= i < |out.results| ==> (out.results[i].isExactMatch <==> i < |t1|))
      && (forall i :: |t1| <= i < |t2| ==> out.results[i].fallbackReason == plan.fallback.reason)
      && (forall i :: |t2| <= i < |out.results| ==> out.results[i].fallbackReason == Tier3Reason(plan))
  {
    CollectedInTierOrder(store, plan, pageSize, seen);
    var t1 := Tier1(store, plan, pageSize, seen);
    var items := Collected(store, plan, pageSize, seen);
    var rs := PresentAll(items, avg);
    assert forall i :: 0 <= i < |t1| ==> rs[i] == Present(t1[i], avg);
    assert rs[..|t1|] == PresentAll(t1, avg);
  }

  /** `isFallback` holds exactly when a fallback tier contributed a row. */
  lemma FallbackFlag(store: seq<Listing>, plan: SearchPlan, pageSize: int, seen: seq<int>, avg: real)
    ensures var out := QueryResult(store, plan, pageSize, seen, avg);
      out.isFallback <==> |out.results| > |Tier1(store, plan, pageSize, seen)|
  {
    ResultsInTierOrder(store, plan, pageSize, seen, avg);
    var out := QueryResult(store, plan, pageSize, seen, avg);
    var k := |Tier1(store, plan, pageSize, seen)|;
    if |out.results| > k {
      assert !out.results[k].isExactMatch;
    }
  }

  /** Five primary rows stop the search after one query; so do a plan
      without a fallback area and a primary filter without a city. */
  lemma SingleQueryCases(store: seq<Listing>, plan: SearchPlan, pageSize: int, seen: seq<int>)
    requires |Execute(store, Tier1Query(plan, pageSize, seen))| >= StrategicThreshold
          || (plan.fallback.area == "" && plan.primary.city == "")
    ensures IssuedQueries(store, plan, pageSize, seen) == [Tier1Query(plan, pageSize, seen)]
    ensures Collected(store, plan, pageSize, seen) == Tier1(store, plan, pageSize, seen)
  {
  }

  /** Tier gating: the second query is the tier-2 query exactly when tier 1
      found fewer than five rows and the plan names a fallback area; a
      tier-3 query, without area, is issued exactly when fewer than three
      rows were collected and the primary filter names a city. No other
      query is issued. */
  lemma TierGates(store: seq<Listing>, plan: SearchPlan, pageSize: int, seen: seq<int>)
    ensures var qs := IssuedQueries(store, plan, pageSize, seen);
      var t1 := Tier1(store, plan, pageSize, seen);
      var t2 := AfterTier2(store, plan, pageSize, seen, t1);
      && |qs| == 1 + (if Tier2Fires(plan, t1) then 1 else 0) + (if Tier3Fires(plan, t2) then 1 else 0)
      && qs[0] == Tier1Query(plan, pageSize, seen)
      && (Tier2Fires(plan, t1) ==> |qs| >= 2 && qs[1] == Tier2Query(plan, pageSize, seen, t1))
      && (!Tier2Fires(plan, t1) ==> t2 == t1)
      && (Tier3Fires(plan, t2) <==> |qs| == 3 || (|qs| == 2 && !Tier2Fires(plan, t1)))
      && (Tier3Fires(plan, t2) ==> qs[|qs| - 1] == Tier3Query(plan, pageSize, seen, t2))
  {
  }

  /** When tier 1 fills a page of fewer than five rows, the fallback query
      is still issued, with `LIMIT 0`, and adds nothing. */
  lemma ExhaustedBudgetStillQueries(store: seq<Listing>, plan: SearchPlan, pageSize: int, seen: seq<int>)
    requires 0 <= pageSize < StrategicThreshold && plan.fallback.area != ""
    requires |Execute(store, Tier1Query(plan, pageSize, seen))| == pageSize
    ensures var qs := IssuedQueries(store, plan, pageSize, seen);
      |qs| >= 2 && qs[1].limit == 0
    ensures |AfterTier2(store, plan, pageSize, seen, Tier1(store, plan, pageSize, seen))| == pageSize
  {
  }
}
