/** The listings store and the query executor of
    backend/api/services/db_service.py: the row shape of the four-table join,
    the filter a search plan carries, the predicate `build_query` writes as
    SQL, and the executor "filter, order by price ascending, limit". */
module Listings {
  import opened Wrappers
  import opened Strings
  import opened Seqs

  /** One row of `properties` joined with `cities`, `areas` and `categories`.
      An empty string stands for SQL NULL, which every test below treats as
      "does not match". */
  datatype Listing = Listing(
    id: int,
    title: string,
    description: string,
    location: string,
    price: real,
    bedrooms: Option<int>,
    bathrooms: Option<int>,
    propertyType: string,
    status: string,
    cityName: string,
    areaName: string,
    categoryName: string)

  /** The `primary` filter of a search plan. Empty strings are absent keys;
      `beds`, `minPrice` and `maxPrice` keep `None` apart from zero because
      the source tests them differently. `legacyType` is the old `type` key. */
  datatype Filter = Filter(
    city: string,
    area: string,
    beds: Option<int>,
    minPrice: Option<real>,
    maxPrice: Option<real>,
    propertyType: string,
    legacyType: Option<string>,
    category: string,
    isResidential: bool)

  /** `{}`: no constraint beyond the fixed ones; `isResidential` defaults to true. */
  const EmptyFilter: Filter := Filter("", "", None, None, None, "", None, "", true)

  /** The plan's `fallback` hint. */
  datatype Fallback = Fallback(area: string, reason: Option<string>)

  datatype SearchPlan = SearchPlan(primary: Filter, fallback: Fallback)

  const EmptyPlan: SearchPlan := SearchPlan(EmptyFilter, Fallback("", None))

  /** The categories a residential search admits; `Office` is not one of them. */
  const ResidentialCategories: set<string> :=
    {"Apartment", "Villa", "Townhouse", "Penthouse", "Duplex", "Compound", "Bungalow", "Hotel & Hotel Apartment"}

  /** Thresholds of the buy/rent data-quality rule. */
  const CheapBuyIsRent: real := 200000.0
  const DearRentIsBuy: real := 2000000.0

  /** A price filter applies only when truthy: `None` and `0` are ignored. */
  predicate PriceBoundSet(p: Option<real>)
  {
    p.Some? && p.value != 0.0
  }

  /** `(filters.get('propertyType') or filters.get('type', 'buy')).lower()`. */
  function EffectiveType(f: Filter): string
  {
    Lower(if f.propertyType != "" then f.propertyType else f.legacyType.GetOr("buy"))
  }

  /** A rent search also takes buy rows under 200,000; any other search also
      takes rent rows over 2,000,000. */
  predicate TypeRule(kind: string, r: Listing)
  {
    if kind == "rent" then
      r.propertyType == "rent" || (r.propertyType == "buy" && r.price < CheapBuyIsRent)
    else
      r.propertyType == "buy" || (r.propertyType == "rent" && r.price > DearRentIsBuy)
  }

  /** `LOWER(c.name) = city OR LOWER(c.name) LIKE '%' || city`: equality or suffix. */
  predicate CityMatches(name: string, city: string)
  {
    Lower(name) == Lower(city) || EndsWith(Lower(name), Lower(city))
  }

  /** `LOWER(a.name) LIKE '%area%' OR LOWER(p.location) LIKE '%area%'`. */
  predicate AreaMatches(r: Listing, area: string)
  {
    Contains(Lower(r.areaName), Lower(area)) || Contains(Lower(r.location), Lower(area))
  }

  /** The WHERE clause `build_query(filters)` produces, where `seen` is the
      request's `seen_ids`. */
  predicate Matches(f: Filter, seen: seq<int>, r: Listing)
  {
    && r.status == "active"
    && r.price > 0.0
    && (f.category != "" ==> Lower(r.categoryName) == Lower(f.category))
    && (f.beds.Some? ==> r.bedrooms == f.beds)
    && (PriceBoundSet(f.maxPrice) ==> r.price <= f.maxPrice.value)
    && (PriceBoundSet(f.minPrice) ==> r.price >= f.minPrice.value)
    && (f.city != "" ==> CityMatches(r.cityName, f.city))
    && (f.area != "" ==> AreaMatches(r, f.area))
    && TypeRule(EffectiveType(f), r)
    && (f.isResidential ==> r.categoryName in ResidentialCategories)
    && r.id !in seen
  }

  /** One issued query: the filter, the `seen_ids` that `build_query` excludes,
      the further ids excluded by a fallback tier, and the LIMIT. */
  datatype Query = Query(filter: Filter, seen: seq<int>, found: seq<int>, limit: int)

  predicate Admits(q: Query, r: Listing)
  {
    Matches(q.filter, q.seen, r) && r.id !in q.found
  }

  /** The rows of the store the WHERE clause admits, in store order. */
  function Where(store: seq<Listing>, q: Query): (rows: seq<Listing>)
    ensures |rows| <= |store|
    ensures forall i :: 0 <= i < |rows| ==> rows[i] in store && Admits(q, rows[i])
    ensures rows == FilterMap(store, r => Admits(q, r), (r: Listing) => r)
  {
    if store == [] then []
    else (if Admits(q, store[0]) then [store[0]] else []) + Where(store[1..], q)
  }

  function PriceKey(r: Listing): real
  {
    r.price
  }

  /** The query executor: WHERE, `ORDER BY p.price ASC`, then `LIMIT`. SQLite
      reads a negative LIMIT as "no limit". Equal prices keep store order. */
  function Execute(store: seq<Listing>, q: Query): seq<Listing>
  {
    var rows := SortBy(Where(store, q), PriceKey);
    if q.limit < 0 then rows else Take(rows, q.limit)
  }

  function ListingId(r: Listing): int
  {
    r.id
  }

  predicate UniqueIds(rows: seq<Listing>)
  {
    DistinctBy(rows, ListingId)
  }

  /** Every row the executor returns is a row of the store the query admits. */
  lemma ExecuteAdmits(store: seq<Listing>, q: Query)
    ensures forall i :: 0 <= i < |Execute(store, q)| ==>
      Execute(store, q)[i] in store && Admits(q, Execute(store, q)[i])
  {
    var rows := Where(store, q);
    SortByPermutes(rows, PriceKey);
    var sorted := SortBy(rows, PriceKey);
    forall i | 0 <= i < |sorted|
      ensures sorted[i] in store && Admits(q, sorted[i])
    {
      assert sorted[i] in multiset(sorted);
      assert sorted[i] in multiset(rows);
    }
  }

  /** Every admitted row of the store survives the WHERE clause. */
  lemma {:induction false} WhereComplete(store: seq<Listing>, q: Query, r: Listing)
    requires r in store && Admits(q, r)
    ensures r in Where(store, q)
  {
    if store[0] != r {
      assert r in store[1..];
      WhereComplete(store[1..], q, r);
    }
  }

  /** An admitted row is missing from the answer only because the LIMIT
      was reached by rows no dearer than it: the executor returns the
      cheapest admitted rows. */
  lemma ExecuteTakesCheapest(store: seq<Listing>, q: Query, r: Listing)
    requires r in store && Admits(q, r) && r !in Execute(store, q)
    ensures q.limit >= 0 && |Execute(store, q)| == q.limit
    ensures forall x :: x in Execute(store, q) ==> x.price <= r.price
  {
    var rows := Where(store, q);
    WhereComplete(store, q, r);
    SortByPermutes(rows, PriceKey);
    SortBySorted(rows, PriceKey);
    var sorted := SortBy(rows, PriceKey);
    assert r in multiset(rows);
    assert r in sorted;
    assert q.limit >= 0;
    TakeSortedOmits(sorted, PriceKey, q.limit, r);
    var out := Execute(store, q);
    forall x | x in out
      ensures x.price <= r.price
    {
      var i :| 0 <= i < |out| && out[i] == x;
      assert PriceKey(out[i]) <= PriceKey(r);
    }
  }

  /** A non-negative LIMIT bounds the number of rows. */
  lemma ExecuteBounded(store: seq<Listing>, q: Query)
    requires q.limit >= 0
    ensures |Execute(store, q)| <= q.limit
  {
  }

  /** The executor returns rows in ascending price order. */
  lemma ExecuteSorted(store: seq<Listing>, q: Query)
    ensures SortedBy(Execute(store, q), PriceKey)
  {
    SortBySorted(Where(store, q), PriceKey);
  }

  lemma {:induction false} WhereUnique(store: seq<Listing>, q: Query)
    requires UniqueIds(store)
    ensures UniqueIds(Where(store, q))
  {
    if store != [] {
      WhereUnique(store[1..], q);
      var rest := Where(store[1..], q);
      forall i | 0 <= i < |rest|
        ensures rest[i].id != store[0].id
      {
        var j :| 0 <= j < |store[1..]| && store[1..][j] == rest[i];
        assert store[j + 1] == rest[i];
      }
    }
  }

  /** Over a store with unique ids, one query returns each id at most once. */
  lemma ExecuteUnique(store: seq<Listing>, q: Query)
    requires UniqueIds(store)
    ensures UniqueIds(Execute(store, q))
  {
    WhereUnique(store, q);
    SortByDistinct(Where(store, q), PriceKey, ListingId);
  }

  /** Every row any query admits is active, has a positive price and obeys
      the buy/rent rule of the filter's property type. */
  lemma AdmittedRowsAreListed(q: Query, r: Listing)
    requires Admits(q, r)
    ensures r.status == "active" && r.price > 0.0 && TypeRule(EffectiveType(q.filter), r)
    ensures r.id !in q.seen && r.id !in q.found
  {
  }

  /** A residential search for the category `Office` admits no row, since the
      allow-list leaves `Office` out. */
  lemma OfficeIsNotResidential(f: Filter, seen: seq<int>, r: Listing)
    requires f.isResidential && Lower(f.category) == "office"
    ensures !Matches(f, seen, r)
  {
    if r.categoryName in ResidentialCategories {
      NoResidentialIsOffice(r.categoryName);
    }
  }

  lemma NoResidentialIsOffice(n: string)
    requires n in ResidentialCategories
    ensures Lower(n) != "office"
  {
    if n == "Duplex" {
      assert Lower(n)[0] == 'd';
    }
  }

  /** `maxPrice = 0` and `minPrice = 0` are ignored like a missing bound. */
  lemma ZeroPriceBoundsIgnored(f: Filter, seen: seq<int>, r: Listing)
    ensures Matches(f.(maxPrice := Some(0.0), minPrice := Some(0.0)), seen, r)
        == Matches(f.(maxPrice := None, minPrice := None), seen, r)
  {
  }

  /** `beds = 0` is applied: it asks for studios. */
  lemma ZeroBedsApplied(f: Filter, seen: seq<int>, r: Listing)
    requires f.beds == Some(0) && Matches(f, seen, r)
    ensures r.bedrooms == Some(0)
  {
  }

  /** The city test is a suffix test: a city named "New Dubai" matches "dubai". */
  lemma CityIsSuffixMatch()
    ensures CityMatches("New Dubai", "dubai")
  {
    assert Lower("New Dubai")[4..] == Lower("dubai");
  }
}
