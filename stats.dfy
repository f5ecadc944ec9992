/** Price statistics of backend/api/services/db_service.py:
    `calculate_results_stats` over an in-memory result set, and
    `get_property_stats`, the market aggregate read through the shared cache. */
module Stats {
  import opened Wrappers
  import opened Numbers
  import opened Strings
  import opened Seqs
  import opened Listings
  import opened Results
  import opened CacheService

  /** `is_result_based` or `is_market_based`. */
  datatype Provenance = ResultBased | MarketBased

  /** One `city_breakdown` entry. */
  datatype CityRow = CityRow(name: string, count: int, avg: real, min: real, max: real)

  /** The stats dictionary: `area`, the provenance flag, `counts`, `prices`
      (with `total_value` only in the market form) and, for a UAE-wide
      market request, `city_breakdown`. */
  datatype StatsSnapshot = StatsSnapshot(
    area: string,
    provenance: Provenance,
    total: int,
    active: int,
    min: real,
    max: real,
    avg: real,
    totalValue: Option<real>,
    cityBreakdown: Option<seq<CityRow>>)

  /** The market aggregate's time-to-live in the cache. */
  const StatsTtl: real := 3600.0

  // ---------------------------------------------------------------------------
  // calculate_results_stats

  /** The truthy prices of a result set, in order. */
  function PricedOf(results: seq<ResultItem>): (prices: seq<real>)
    ensures |prices| <= |results|
    ensures forall i :: 0 <= i < |prices| ==> prices[i] != 0.0
    ensures prices == FilterMap(results, IsPriced, ItemPrice)
  {
    if results == [] then []
    else
      (if results[0].price != 0.0 then [results[0].price] else []) + PricedOf(results[1..])
  }

  /** `PricedOf` drops exactly the zero prices. */
  lemma {:induction false} PricedOfComplete(results: seq<ResultItem>, j: int)
    requires 0 <= j < |results| && results[j].price != 0.0
    ensures results[j].price in PricedOf(results)
  {
    if j > 0 {
      PricedOfComplete(results[1..], j - 1);
    }
  }

  function CalculateResultsStats(results: seq<ResultItem>, areaName: string): Option<StatsSnapshot>
  {
    var prices := PricedOf(results);
    if results == [] || prices == [] then None
    else Some(StatsSnapshot(areaName, ResultBased, |results|, |results|,
                            MinOf(prices), MaxOf(prices), MeanOf(prices), None, None))
  }

  /** `None` exactly for an empty result set or one without a priced item. */
  lemma ResultsStatsNone(results: seq<ResultItem>, areaName: string)
    ensures CalculateResultsStats(results, areaName).None? <==>
      results == [] || forall j :: 0 <= j < |results| ==> results[j].price == 0.0
  {
    if exists j :: 0 <= j < |results| && results[j].price != 0.0 {
      var j :| 0 <= j < |results| && results[j].price != 0.0;
      PricedOfComplete(results, j);
    } else {
      PricedOfAllZero(results);
    }
  }

  lemma {:induction false} PricedOfAllZero(results: seq<ResultItem>)
    requires forall j :: 0 <= j < |results| ==> results[j].price == 0.0
    ensures PricedOf(results) == []
  {
    if results != [] {
      PricedOfAllZero(results[1..]);
    }
  }

  /** Otherwise both counts are the result count; min and max are the
      smallest and the largest truthy price, each the price of some result;
      avg is the mean of the truthy prices and lies between them. */
  lemma ResultsStatsBounds(results: seq<ResultItem>, areaName: string)
    requires CalculateResultsStats(results, areaName).Some?
    ensures var s := CalculateResultsStats(results, areaName).value;
      && s.area == areaName && s.provenance == ResultBased
      && s.total == |results| && s.active == |results|
      && s.min == MinOf(PricedOf(results)) && s.max == MaxOf(PricedOf(results))
      && s.avg == MeanOf(PricedOf(results))
      && s.min <= s.avg <= s.max
      && (exists j :: 0 <= j < |results| && results[j].price != 0.0 && results[j].price == s.min)
      && (exists j :: 0 <= j < |results| && results[j].price != 0.0 && results[j].price == s.max)
      && forall j :: 0 <= j < |results| && results[j].price != 0.0 ==> s.min <= results[j].price <= s.max
  {
    var prices := PricedOf(results);
    MeanBetweenMinAndMax(prices);
    FilterMapMember(results, IsPriced, ItemPrice, MinOf(prices));
    FilterMapMember(results, IsPriced, ItemPrice, MaxOf(prices));
    forall j | 0 <= j < |results| && results[j].price != 0.0
      ensures MinOf(prices) <= results[j].price <= MaxOf(prices)
    {
      PricedOfComplete(results, j);
    }
  }

  // ---------------------------------------------------------------------------
  // The market aggregate

  /** The WHERE clause of the aggregate query: active, priced, the area in
      the location or the area name (SQLite's LIKE ignores ASCII case) and
      the city by case-insensitive equality. */
  predicate InMarket(r: Listing, city: string, area: string)
  {
    && r.price > 0.0
    && r.status == "active"
    && (area != "" ==> Contains(Lower(r.location), Lower(area)) || Contains(Lower(r.areaName), Lower(area)))
    && (city != "" ==> Lower(r.cityName) == Lower(city))
  }

  /** The prices of the aggregated rows, in store order. */
  function MarketPrices(store: seq<Listing>, city: string, area: string): (prices: seq<real>)
    ensures |prices| <= |store|
    ensures forall i :: 0 <= i < |prices| ==> prices[i] > 0.0
    ensures prices == FilterMap(store, r => InMarket(r, city, area), PriceKey)
  {
    if store == [] then []
    else (if InMarket(store[0], city, area) then [store[0].price] else []) + MarketPrices(store[1..], city, area)
  }

  /** `filters.get('area') or filters.get('city') or "All UAE"`. */
  function StatsLabel(city: string, area: string): string
  {
    if area != "" then area else if city != "" then city else "All UAE"
  }

  /** The rows the breakdown query groups: active, priced, with a city. */
  predicate InBreakdown(r: Listing)
  {
    r.status == "active" && r.price > 0.0 && r.cityName != ""
  }

  function BreakdownNames(store: seq<Listing>): (names: seq<string>)
    ensures forall i :: 0 <= i < |names| ==> names[i] != ""
  {
    if store == [] then []
    else (if InBreakdown(store[0]) then [store[0].cityName] else []) + BreakdownNames(store[1..])
  }

  /** The prices of one city's group. */
  function CityPrices(store: seq<Listing>, name: string): seq<real>
  {
    if store == [] then []
    else (if InBreakdown(store[0]) && store[0].cityName == name then [store[0].price] else [])
         + CityPrices(store[1..], name)
  }

  lemma {:induction false} CityPricesOfListedName(store: seq<Listing>, name: string)
    requires name in BreakdownNames(store)
    ensures |CityPrices(store, name)| >= 1
  {
    if !(InBreakdown(store[0]) && store[0].cityName == name) {
      CityPricesOfListedName(store[1..], name);
    }
  }

  /** `COUNT(*)`, `AVG`, `MIN`, `MAX` of one city's group. */
  function Aggregate(store: seq<Listing>, name: string): CityRow
  {
    var prices := CityPrices(store, name);
    if prices == [] then CityRow(name, 0, 0.0, 0.0, 0.0)
    else CityRow(name, |prices|, MeanOf(prices), MinOf(prices), MaxOf(prices))
  }

  /** One row per city, in order of first appearance. */
  function Groups(store: seq<Listing>): (groups: seq<CityRow>)
    ensures |groups| == |Dedupe(BreakdownNames(store))|
  {
    var names := Dedupe(BreakdownNames(store));
    seq(|names|, i requires 0 <= i < |names| => Aggregate(store, names[i]))
  }

  /** `ORDER BY count DESC`: the key that sorts higher counts first. */
  function CountDescending(c: CityRow): real
  {
    -(c.count as real)
  }

  function CityName(c: CityRow): string
  {
    c.name
  }

  /** `GROUP BY c.name ORDER BY count DESC LIMIT 5`; among equal counts the
      city seen first in the store comes first. */
  function Breakdown(store: seq<Listing>): seq<CityRow>
  {
    Take(SortBy(Groups(store), CountDescending), 5)
  }

  /** The aggregate query and the result dictionary; `None` when no row is counted. */
  function MarketStats(store: seq<Listing>, city: string, area: string): Option<StatsSnapshot>
  {
    var prices := MarketPrices(store, city, area);
    if prices == [] then None
    else Some(StatsSnapshot(StatsLabel(city, area), MarketBased, |prices|, |prices|,
                            MinOf(prices), MaxOf(prices), MeanOf(prices), Some(SumOf(prices)),
                            if city == "" && area == "" then Some(Breakdown(store)) else None))
  }

  /** `None` exactly when no row is counted; otherwise the label, the counts,
      MIN/MAX/AVG/SUM of the aggregated prices (min <= avg <= max, all
      positive), and a breakdown, exactly the top-five `Breakdown`, for a
      request with neither city nor area. */
  lemma MarketStatsShape(store: seq<Listing>, city: string, area: string)
    ensures MarketStats(store, city, area).None? <==> |MarketPrices(store, city, area)| == 0
    ensures MarketStats(store, city, area).Some? ==>
      var s := MarketStats(store, city, area).value;
      var prices := MarketPrices(store, city, area);
      && s.area == StatsLabel(city, area) && s.provenance == MarketBased
      && s.total == |prices| == s.active
      && s.min == MinOf(prices) && s.max == MaxOf(prices)
      && s.avg == MeanOf(prices) && s.totalValue == Some(SumOf(prices))
      && 0.0 < s.min <= s.avg <= s.max
      && (s.cityBreakdown.Some? <==> city == "" && area == "")
      && (s.cityBreakdown.Some? ==> s.cityBreakdown.value == Breakdown(store))
  {
    var prices := MarketPrices(store, city, area);
    if prices != [] {
      MeanBetweenMinAndMax(prices);
      assert MinOf(prices) in prices;
    }
  }

  /** The market MIN and MAX are each the price of a row the WHERE clause admits. */
  lemma MarketStatsAttained(store: seq<Listing>, city: string, area: string)
    requires MarketStats(store, city, area).Some?
    ensures var s := MarketStats(store, city, area).value;
      && (exists j :: 0 <= j < |store| && InMarket(store[j], city, area) && store[j].price == s.min)
      && (exists j :: 0 <= j < |store| && InMarket(store[j], city, area) && store[j].price == s.max)
  {
    var prices := MarketPrices(store, city, area);
    FilterMapMember(store, r => InMarket(r, city, area), PriceKey, MinOf(prices));
    FilterMapMember(store, r => InMarket(r, city, area), PriceKey, MaxOf(prices));
  }

  /** Each aggregated price is the price of a row the WHERE clause admits,
      and each such row's price is aggregated. */
  lemma MarketPricesExact(store: seq<Listing>, city: string, area: string)
    ensures var prices := MarketPrices(store, city, area);
      forall i :: 0 <= i < |prices| ==>
        exists j :: 0 <= j < |store| && InMarket(store[j], city, area) && prices[i] == store[j].price
    ensures forall j :: 0 <= j < |store| && InMarket(store[j], city, area) ==>
      store[j].price in MarketPrices(store, city, area)
  {
    var keep := r => InMarket(r, city, area);
    FilterMapIndexed(store, keep, PriceKey);
    var prices, idx := MarketPrices(store, city, area), KeptIndices(store, keep);
    forall i | 0 <= i < |prices|
      ensures exists j :: 0 <= j < |store| && InMarket(store[j], city, area) && prices[i] == store[j].price
    {
      var j := idx[i];
      assert InMarket(store[j], city, area) && prices[i] == store[j].price;
    }
    forall j | 0 <= j < |store| && InMarket(store[j], city, area)
      ensures store[j].price in prices
    {
      assert keep(store[j]);
      var i :| 0 <= i < |idx| && idx[i] == j;
      assert prices[i] == store[j].price;
    }
  }

  /** A breakdown row: the aggregate of a non-empty group of one of the
      store's counted cities. */
  predicate WellAggregated(store: seq<Listing>, c: CityRow)
  {
    && c.name in BreakdownNames(store)
    && c == Aggregate(store, c.name)
    && c.count >= 1
    && c.min <= c.avg <= c.max
  }

  /** Before sorting: one row per city, each aggregating a non-empty group. */
  lemma GroupsShape(store: seq<Listing>)
    ensures DistinctBy(Groups(store), CityName)
    ensures forall i :: 0 <= i < |Groups(store)| ==> WellAggregated(store, Groups(store)[i])
  {
    var groups := Groups(store);
    var names := Dedupe(BreakdownNames(store));
    forall i, j | 0 <= i < j < |groups|
      ensures CityName(groups[i]) != CityName(groups[j])
    {
      assert groups[i].name == names[i] && groups[j].name == names[j];
    }
    forall i | 0 <= i < |groups|
      ensures WellAggregated(store, groups[i])
    {
      CityPricesOfListedName(store, names[i]);
      MeanBetweenMinAndMax(CityPrices(store, names[i]));
    }
  }

  /** Reordering rows keeps every row well aggregated. */
  lemma PermutedWellAggregated(store: seq<Listing>, rows: seq<CityRow>, perm: seq<CityRow>)
    requires multiset(perm) == multiset(rows)
    requires forall i :: 0 <= i < |rows| ==> WellAggregated(store, rows[i])
    ensures forall i :: 0 <= i < |perm| ==> WellAggregated(store, perm[i])
  {
    forall i | 0 <= i < |perm|
      ensures WellAggregated(store, perm[i])
    {
      assert perm[i] in multiset(perm);
      assert perm[i] in rows;
    }
  }

  /** The groups sorted by descending count: a permutation of the groups,
      ordered, one row per city, every row well aggregated. */
  lemma SortedGroupsShape(store: seq<Listing>)
    ensures var sorted := SortBy(Groups(store), CountDescending);
      && multiset(sorted) == multiset(Groups(store))
      && |sorted| == |Groups(store)|
      && SortedBy(sorted, CountDescending)
      && DistinctBy(sorted, CityName)
      && forall i :: 0 <= i < |sorted| ==> WellAggregated(store, sorted[i])
  {
    var groups := Groups(store);
    GroupsShape(store);
    var sorted := SortBy(groups, CountDescending);
    SortBySorted(groups, CountDescending);
    SortByPermutes(groups, CountDescending);
    SortByDistinct(groups, CountDescending, CityName);
    PermutedWellAggregated(store, groups, sorted);
    assert |multiset(sorted)| == |multiset(groups)|;
  }

  /** A well-aggregated row holds its group's count, mean, minimum and maximum. */
  lemma WellAggregatedValues(store: seq<Listing>, c: CityRow)
    requires WellAggregated(store, c)
    ensures var prices := CityPrices(store, c.name);
      && c.count == |prices|
      && c.avg == MeanOf(prices) && c.min == MinOf(prices) && c.max == MaxOf(prices)
  {
  }

  lemma BreakdownRowsWellAggregated(store: seq<Listing>)
    ensures forall i :: 0 <= i < |Breakdown(store)| ==> WellAggregated(store, Breakdown(store)[i])
  {
    SortedGroupsShape(store);
    var sorted := SortBy(Groups(store), CountDescending);
    var bd := Breakdown(store);
    assert bd == sorted[..|bd|];
    forall i | 0 <= i < |bd|
      ensures WellAggregated(store, bd[i])
    {
      assert bd[i] == sorted[i];
    }
  }

  /** The city breakdown has one row for each counted city up to five, is
      ordered by descending count and names each city once; every row is
      the `COUNT`, `AVG`, `MIN` and `MAX` of its city's group. */
  lemma BreakdownShape(store: seq<Listing>)
    ensures var n := |Dedupe(BreakdownNames(store))|;
      |Breakdown(store)| == if n < 5 then n else 5
    ensures SortedBy(Breakdown(store), CountDescending)
    ensures DistinctBy(Breakdown(store), CityName)
    ensures forall i :: 0 <= i < |Breakdown(store)| ==>
      var c := Breakdown(store)[i];
      var prices := CityPrices(store, c.name);
      && c.name in BreakdownNames(store)
      && c.count == |prices| && c.count >= 1
      && c.avg == MeanOf(prices) && c.min == MinOf(prices) && c.max == MaxOf(prices)
      && c.min <= c.avg <= c.max
  {
    BreakdownOrder(store);
    BreakdownRowsWellAggregated(store);
    var bd := Breakdown(store);
    forall i | 0 <= i < |bd|
      ensures var prices := CityPrices(store, bd[i].name);
        && bd[i].count == |prices|
        && bd[i].avg == MeanOf(prices) && bd[i].min == MinOf(prices) && bd[i].max == MaxOf(prices)
    {
      WellAggregatedValues(store, bd[i]);
    }
  }

  /** The breakdown's length and order, from those of the sorted groups. */
  lemma BreakdownOrder(store: seq<Listing>)
    ensures var n := |Dedupe(BreakdownNames(store))|;
      |Breakdown(store)| == if n < 5 then n else 5
    ensures SortedBy(Breakdown(store), CountDescending)
    ensures DistinctBy(Breakdown(store), CityName)
  {
    SortedGroupsShape(store);
    var sorted := SortBy(Groups(store), CountDescending);
    var bd := Breakdown(store);
    assert bd == sorted[..|bd|];
    assert forall i :: 0 <= i < |bd| ==> bd[i] == sorted[i];
  }

  /** Every counted city has its aggregate among the groups. */
  lemma GroupOfName(store: seq<Listing>, name: string)
    requires name in BreakdownNames(store)
    ensures Aggregate(store, name) in Groups(store)
    ensures Aggregate(store, name).name == name
    ensures Aggregate(store, name).count == |CityPrices(store, name)|
  {
    var names := Dedupe(BreakdownNames(store));
    var k :| 0 <= k < |names| && names[k] == name;
    assert Groups(store)[k] == Aggregate(store, name);
    CityPricesOfListedName(store, name);
  }

  /** A counted city left out of the breakdown is left out because five
      cities with at least as many rows fill it. */
  lemma BreakdownTopFive(store: seq<Listing>, name: string)
    requires name in BreakdownNames(store)
    requires forall i :: 0 <= i < |Breakdown(store)| ==> Breakdown(store)[i].name != name
    ensures |Breakdown(store)| == 5
    ensures forall i :: 0 <= i < |Breakdown(store)| ==> Breakdown(store)[i].count >= |CityPrices(store, name)|
  {
    var g := Aggregate(store, name);
    GroupOfName(store, name);
    var groups := Groups(store);
    var sorted := SortBy(groups, CountDescending);
    SortBySorted(groups, CountDescending);
    SortByPermutes(groups, CountDescending);
    assert g in multiset(groups);
    assert g in sorted;
    assert g !in Breakdown(store);
    TakeSortedOmits(sorted, CountDescending, 5, g);
  }

  // ---------------------------------------------------------------------------
  // get_property_stats through the cache

  /** `f"stats_{city}_{area}"`, where a missing value renders as `None`. */
  function StatsKey(city: string, area: string): string
  {
    "stats_" + NonEmptyOr(city, "None") + "_" + NonEmptyOr(area, "None")
  }

  /** What `get_property_stats` returns: the live cached value, else the aggregate. */
  function StatsThroughCache(data: map<string, Entry<StatsSnapshot>>, store: seq<Listing>,
                             city: string, area: string, now: real): Option<StatsSnapshot>
  {
    var hit := Lookup(data, StatsKey(city, area), now);
    if hit.Some? then hit else MarketStats(store, city, area)
  }

  /** The cache after `get_property_stats`: the lookup's lazy expiry, then a
      fresh aggregate stored for one hour. */
  function StatsCacheAfter(data: map<string, Entry<StatsSnapshot>>, store: seq<Listing>,
                           city: string, area: string, now: real): map<string, Entry<StatsSnapshot>>
  {
    var key := StatsKey(city, area);
    var d := AfterGet(data, key, now);
    if Lookup(data, key, now).Some? then d
    else match MarketStats(store, city, area)
      case None => d
      case Some(s) => d[key := Entry(s, now + StatsTtl)]
  }

  method GetPropertyStats(cache: SimpleCache<StatsSnapshot>, store: seq<Listing>,
                          city: string, area: string, now: real) returns (r: Option<StatsSnapshot>)
    modifies cache
    ensures r == StatsThroughCache(old(cache.data), store, city, area, now)
    ensures cache.data == StatsCacheAfter(old(cache.data), store, city, area, now)
  {
    var key := StatsKey(city, area);
    var cached := cache.Get(key, now);
    if cached.Some? {
      return cached;
    }
    r := MarketStats(store, city, area);
    if r.Some? {
      cache.Set(key, r.value, Some(StatsTtl), now);
    }
  }

  /** A cache hit returns the cached value and leaves the cache as it was. */
  lemma StatsHit(data: map<string, Entry<StatsSnapshot>>, store: seq<Listing>,
                 city: string, area: string, now: real, v: StatsSnapshot)
    requires Lookup(data, StatsKey(city, area), now) == Some(v)
    ensures StatsThroughCache(data, store, city, area, now) == Some(v)
    ensures StatsCacheAfter(data, store, city, area, now) == data
  {
  }

  /** With nothing live in the cache and no row counted, the answer is
      `None` and no entry for the request is left live. */
  lemma StatsNoneCachesNothing(data: map<string, Entry<StatsSnapshot>>, store: seq<Listing>,
                               city: string, area: string, now: real)
    requires Lookup(data, StatsKey(city, area), now).None?
    requires MarketPrices(store, city, area) == []
    ensures StatsThroughCache(data, store, city, area, now) == None
    ensures Lookup(StatsCacheAfter(data, store, city, area, now), StatsKey(city, area), now).None?
  {
  }

  /** Within the hour after a computed answer, the same request is answered
      from the cache with the same value, whatever the store holds by then. */
  lemma StatsStableWithinTtl(data: map<string, Entry<StatsSnapshot>>, store: seq<Listing>, later_store: seq<Listing>,
                             city: string, area: string, now: real, later: real)
    requires StatsThroughCache(data, store, city, area, now).Some?
    requires now <= later < now + StatsTtl
    requires Lookup(data, StatsKey(city, area), now).None?
    ensures StatsThroughCache(StatsCacheAfter(data, store, city, area, now), later_store, city, area, later)
         == StatsThroughCache(data, store, city, area, now)
  {
  }

  /** The key tells requests apart: different requests get different keys
      as long as the city contains no underscore and neither value is the
      text `None` (which would collide with a missing value). */
  lemma StatsKeyDistinguishes(city: string, area: string, city': string, area': string)
    requires '_' !in city && '_' !in city' && city != "None" && city' != "None"
    requires area != "None" && area' != "None"
    requires StatsKey(city, area) == StatsKey(city', area')
    ensures city == city' && area == area'
  {
    var c, c' := NonEmptyOr(city, "None"), NonEmptyOr(city', "None");
    var k := StatsKey(city, area);
    assert k == "stats_" + c + "_" + NonEmptyOr(area, "None");
    assert k == "stats_" + c' + "_" + NonEmptyOr(area', "None");
    assert forall i :: 0 <= i < |c| ==> k[6 + i] == c[i];
    assert forall i :: 0 <= i < |c'| ==> k[6 + i] == c'[i];
    assert k[6 + |c|] == '_' && k[6 + |c'|] == '_';
    assert |c| == |c'|;
    assert c == k[6..6 + |c|] == c';
    assert NonEmptyOr(area, "None") == k[7 + |c|..] == NonEmptyOr(area', "None");
  }
}
