/** The items `query_properties` returns (backend/api/services/db_service.py):
    how a matched row is tagged with its tier, how it is presented, and the
    price insight it carries against the market average. */
module Results {
  import opened Wrappers
  import opened Numbers
  import opened Strings
  import opened Listings

  /** A collected row: `exact` for tier 1, with the fallback reason of
      tiers 2 and 3. */
  datatype Tagged = Tagged(row: Listing, exact: bool, reason: Option<string>)

  /** The `beds` field: `"Studio"`, a bedroom count, or `"N/A"`. */
  datatype Beds = Studio | Rooms(n: int) | NoBeds

  /** `"Great Deal: N% below avg"` or `"Premium: N% above avg"`. */
  datatype PriceInsight = GreatDeal(below: int) | Premium(above: int)

  /** One element of `final_results`. `baths` is `None` for `'N/A'`. */
  datatype ResultItem = ResultItem(
    id: int,
    title: string,
    description: string,
    location: string,
    price: real,
    beds: Beds,
    baths: Option<int>,
    area: string,
    city: string,
    propertyType: string,
    priceInsight: Option<PriceInsight>,
    isExactMatch: bool,
    fallbackReason: Option<string>)

  /** The insight's text. */
  function InsightText(p: PriceInsight): string
  {
    match p
    case GreatDeal(n) => "Great Deal: " + IntToString(n) + "% below avg"
    case Premium(n) => "Premium: " + IntToString(n) + "% above avg"
  }

  /** The percentage `((price - avg) / avg) * 100`. */
  function PriceDiff(price: real, avg: real): real
    requires avg != 0.0
  {
    ((price - avg) / avg) * 100.0
  }

  /** The percentage thresholds as thresholds on the price itself. */
  lemma DiffThresholds(price: real, avg: real)
    requires avg > 0.0
    ensures PriceDiff(price, avg) < -15.0 <==> price < 0.85 * avg
    ensures PriceDiff(price, avg) > 15.0 <==> price > 1.15 * avg
  {
    var q := (price - avg) / avg;
    assert q * avg == price - avg;
    assert PriceDiff(price, avg) == q * 100.0;
    OrderByPositive(q, -0.15, avg);
    assert q < -0.15 <==> price - avg < -0.15 * avg;
    OrderByPositive(0.15, q, avg);
    assert 0.15 < q <==> 0.15 * avg < price - avg;
  }

  lemma OrderByPositive(x: real, y: real, c: real)
    requires c > 0.0
    ensures x < y <==> x * c < y * c
  {
    assert (y - x) * c == y * c - x * c;
  }

  /** The insight of an item against the market average `avg`. */
  function Insight(avg: real, price: real, exact: bool): Option<PriceInsight>
  {
    if avg > 0.0 && price > 0.0 && exact then
      var diff := PriceDiff(price, avg);
      if diff < -15.0 then Some(GreatDeal(-Trunc(diff)))
      else if diff > 15.0 then Some(Premium(Trunc(diff)))
      else None
    else None
  }

  /** An insight is given only to an exact item with a positive price
      against a positive average; a great deal is more than 15% under the
      average, a premium more than 15% over it, and the reported whole
      percentage is at least 15 either way. */
  lemma InsightIsJustified(avg: real, price: real, exact: bool)
    ensures Insight(avg, price, exact).Some? ==> exact && avg > 0.0 && price > 0.0
    ensures Insight(avg, price, exact).Some? && Insight(avg, price, exact).value.GreatDeal? ==>
      price < 0.85 * avg && Insight(avg, price, exact).value.below >= 15
    ensures Insight(avg, price, exact).Some? && Insight(avg, price, exact).value.Premium? ==>
      price > 1.15 * avg && Insight(avg, price, exact).value.above >= 15
  {
    if avg > 0.0 && price > 0.0 && exact {
      DiffThresholds(price, avg);
    }
  }

  /** Conversely, every exact item with a positive price more than 15% away
      from a positive average gets the matching insight. */
  lemma InsightIsGiven(avg: real, price: real)
    requires avg > 0.0 && price > 0.0
    ensures price < 0.85 * avg ==> Insight(avg, price, true).Some? && Insight(avg, price, true).value.GreatDeal?
    ensures price > 1.15 * avg ==> Insight(avg, price, true).Some? && Insight(avg, price, true).value.Premium?
    ensures 0.85 * avg <= price <= 1.15 * avg ==> Insight(avg, price, true) == None
  {
    DiffThresholds(price, avg);
  }

  /** Exactly 15% from the average is not enough for an insight. */
  lemma FifteenPercentIsNoInsight()
    ensures Insight(100.0, 85.0, true) == None
    ensures Insight(100.0, 115.0, true) == None
    ensures Insight(100.0, 84.5, true) == Some(GreatDeal(15))
    ensures Insight(100.0, 150.0, true) == Some(Premium(50))
  {
    assert PriceDiff(84.5, 100.0) == -15.5;
    assert (15.5).Floor == 15;
    assert PriceDiff(150.0, 100.0) == 50.0;
  }

  /** The `beds` rule: 0 is `"Studio"`, a count is shown, a missing value is `"N/A"`. */
  function BedsOf(bedrooms: Option<int>): Beds
  {
    match bedrooms
    case Some(n) => if n == 0 then Studio else Rooms(n)
    case None => NoBeds
  }

  function NonEmptyOr(s: string, default: string): string
  {
    if s != "" then s else default
  }

  /** One `final_results` entry built from a tagged row against `avg`. */
  function Present(t: Tagged, avg: real): (r: ResultItem)
    ensures r.id == t.row.id && r.price == t.row.price
    ensures r.isExactMatch == t.exact && r.fallbackReason == t.reason
    ensures r.title != "" && r.description != "" && r.location != ""
    ensures r.area != "" && r.city != "" && r.propertyType != ""
    ensures r.beds == Studio <==> t.row.bedrooms == Some(0)
    ensures r.priceInsight.Some? ==> t.exact
  {
    var row := t.row;
    ResultItem(
      row.id,
      NonEmptyOr(row.title, "Untitled"),
      NonEmptyOr(row.description, "No description."),
      NonEmptyOr(row.location, NonEmptyOr(row.areaName, NonEmptyOr(row.cityName, "Unknown"))),
      row.price,
      BedsOf(row.bedrooms),
      if row.bathrooms == Some(0) then None else row.bathrooms,
      NonEmptyOr(row.areaName, NonEmptyOr(row.cityName, "N/A")),
      NonEmptyOr(row.cityName, "N/A"),
      NonEmptyOr(row.propertyType, "buy"),
      Insight(avg, row.price, t.exact),
      t.exact,
      t.reason)
  }

  function ItemPrice(r: ResultItem): real
  {
    r.price
  }

  /** A truthy price: Python skips `0` and `0.0`. */
  predicate IsPriced(r: ResultItem)
  {
    r.price != 0.0
  }

  /** `any(not r['isExactMatch'] for r in final_results)`. */
  predicate AnyFallback(items: seq<ResultItem>)
  {
    exists i :: 0 <= i < |items| && !items[i].isExactMatch
  }
}
