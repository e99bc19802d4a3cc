/**
 * The logic of `server/routes/accommodations.js` around its database calls: the
 * listing query built from the query string, the pagination and sort of `GET /`,
 * the statistics of `/city/:city` and the window statistics of `/:id/price-history`.
 */
module AccommodationRoutes {
  import opened Wrappers
  import opened Schema
  import opened Numeric
  import opened Listings
  import opened PriceHistory
  import opened Grouping
  import opened MarketStats
  import opened TypeTotals

  // ------------------------------------------------------------------ GET /

  /**
   * The query-string parameters of `GET /`. Each is absent or a non-empty string
   * (an empty string is falsy and counts as absent); the numeric ones are given as
   * `Number` converts them.
   */
  datatype Params = Params(
    city: Option<string>, state: Option<string>, kind: Option<string>,
    minPrice: Option<real>, maxPrice: Option<real>, minRating: Option<real>,
    available: Option<string>)

  /** The `currentPrice` condition: `$gte` and `$lte`, each only when supplied. */
  datatype PriceBounds = PriceBounds(gte: Option<real>, lte: Option<real>)

  /** The Mongo query object; `city` and `state` are case-insensitive patterns. */
  datatype Query = Query(
    isActive: bool, city: Option<string>, state: Option<string>, kind: Option<string>,
    currentPrice: Option<PriceBounds>, minScore: Option<real>, onlyAvailable: bool)

  /**
   * Whether a listing satisfies the query; `patternMatches(pattern, text)` stands
   * for `new RegExp(pattern, 'i').test(text)`. A `rating.score` bound does not
   * match a listing without a score.
   */
  predicate Matches(q: Query, l: Listing, patternMatches: (string, string) -> bool)
  {
    && l.isActive == q.isActive
    && (q.city.Some? ==> patternMatches(q.city.value, l.city))
    && (q.state.Some? ==> patternMatches(q.state.value, l.state))
    && (q.kind.Some? ==> TypeName(l.kind) == q.kind.value)
    && (q.currentPrice.Some? ==>
          && (q.currentPrice.value.gte.Some? ==> l.currentPrice >= q.currentPrice.value.gte.value)
          && (q.currentPrice.value.lte.Some? ==> l.currentPrice <= q.currentPrice.value.lte.value))
    && (q.minScore.Some? ==>
          l.rating.Some? && l.rating.value.score.Some? && l.rating.value.score.value >= q.minScore.value)
    && (q.onlyAvailable ==> IsAvailable(l))
  }

  /**
   * The query built field by field: always `isActive: true`, and each other
   * condition only for a supplied parameter, availability only for `'true'`. The
   * query selects exactly the active listings that pass every supplied filter.
   */
  method BuildQuery(p: Params) returns (q: Query)
    ensures q.isActive
    ensures q.currentPrice.Some? <==> p.minPrice.Some? || p.maxPrice.Some?
    ensures q.onlyAvailable <==> p.available == Some("true")
    ensures forall m: (string, string) -> bool, l: Listing :: Matches(q, l, m) <==>
      && l.isActive
      && (p.city.Some? ==> m(p.city.value, l.city))
      && (p.state.Some? ==> m(p.state.value, l.state))
      && (p.kind.Some? ==> TypeName(l.kind) == p.kind.value)
      && (p.minPrice.Some? ==> l.currentPrice >= p.minPrice.value)
      && (p.maxPrice.Some? ==> l.currentPrice <= p.maxPrice.value)
      && (p.minRating.Some? ==> l.rating.Some? && l.rating.value.score.Some? && l.rating.value.score.value >= p.minRating.value)
      && (p.available == Some("true") ==> IsAvailable(l))
  {
    q := Query(true, None, None, None, None, None, false);
    if p.city.Some? {
      q := q.(city := p.city);
    }
    if p.state.Some? {
      q := q.(state := p.state);
    }
    if p.kind.Some? {
      q := q.(kind := p.kind);
    }
    if p.minPrice.Some? || p.maxPrice.Some? {
      var bounds := PriceBounds(None, None);
      if p.minPrice.Some? {
        bounds := bounds.(gte := p.minPrice);
      }
      if p.maxPrice.Some? {
        bounds := bounds.(lte := p.maxPrice);
      }
      q := q.(currentPrice := Some(bounds));
    }
    if p.minRating.Some? {
      q := q.(minScore := p.minRating);
    }
    if p.available == Some("true") {
      q := q.(onlyAvailable := true);
    }
    assert q.currentPrice.Some? ==> q.currentPrice.value == PriceBounds(p.minPrice, p.maxPrice);
    assert q == Query(true, p.city, p.state, p.kind, q.currentPrice, p.minRating, p.available == Some("true"));
  }

  /** `{ [sortBy]: sortOrder === 'desc' ? -1 : 1 }` with the defaults 'rating.score' and 'desc'. */
  datatype SortSpec = SortSpec(field: string, direction: int)

  function SortFor(sortBy: Option<string>, sortOrder: Option<string>): (s: SortSpec)
    ensures s.field == sortBy.GetOr("rating.score")
    ensures s.direction == -1 <==> sortOrder.GetOr("desc") == "desc"
    ensures s.direction == 1 <==> sortOrder.GetOr("desc") != "desc"
  {
    SortSpec(sortBy.GetOr("rating.score"), if sortOrder.GetOr("desc") == "desc" then -1 else 1)
  }

  /** `(page - 1) * limit` listings are skipped. */
  function Skip(page: int, limit: int): int
  {
    (page - 1) * limit
  }

  datatype Pagination = Pagination(total: nat, page: int, limit: int, pages: int)

  /**
   * The `pagination` object with `pages = Math.ceil(total / limit)`; a limit of 0
   * divides by zero. A negative limit, which the query string can carry, gives no
   * positive page count.
   */
  function PaginationFor(total: nat, page: int, limit: int): (r: Pagination)
    requires limit != 0
    ensures r.total == total && r.page == page && r.limit == limit
    ensures total == 0 ==> r.pages == 0
    ensures limit > 0 && total > 0 ==> 1 <= r.pages && (r.pages - 1) * limit < total <= r.pages * limit
    ensures limit < 0 ==> r.pages <= 0 && r.pages * limit <= total < (r.pages - 1) * limit
  {
    Pagination(total, page, limit, CeilDiv(total, limit))
  }

  /** `.skip(skip).limit(limit)` on the sorted matches (Mongo applies `skip` before `limit`). */
  function PageOf<T>(rows: seq<T>, page: int, limit: int): (r: seq<T>)
    requires page >= 1 && limit > 0
    ensures |r| <= limit
    ensures forall i :: 0 <= i < |r| ==> Skip(page, limit) + i < |rows| && r[i] == rows[Skip(page, limit) + i]
  {
    var from := Skip(page, limit);
    if from >= |rows| then []
    else if from + limit >= |rows| then rows[from..]
    else rows[from..from + limit]
  }

  /**
   * Every match appears on exactly the page its position gives, and that page is
   * one of the `pages` announced: paging through 1..pages visits every match.
   */
  lemma {:induction false} EveryRowOnItsPage<T>(rows: seq<T>, limit: int, i: nat)
    requires limit > 0 && i < |rows|
    ensures var page := i / limit + 1;
      && 1 <= page <= PaginationFor(|rows|, page, limit).pages
      && i % limit < |PageOf(rows, page, limit)|
      && PageOf(rows, page, limit)[i % limit] == rows[i]
  {
    var page := i / limit + 1;
    var pages := PaginationFor(|rows|, page, limit).pages;
    PageArithmetic(i, limit, |rows|, pages);
    assert Skip(page, limit) == i - i % limit;
  }

  /** The page `i / limit + 1` of position `i` starts at `i - i % limit` and is no later than the last. */
  lemma {:induction false} PageArithmetic(i: nat, limit: int, total: nat, pages: int)
    requires limit > 0 && i < total && total <= pages * limit
    ensures (i / limit) * limit == i - i % limit
    ensures i / limit + 1 <= pages
  {
    assert (i / limit) * limit + i % limit == i;
    if i / limit >= pages {
      MulMonotone(pages, i / limit, limit);
    }
  }

  lemma {:induction false} MulMonotone(a: int, b: int, c: int)
    requires a <= b && c > 0
    ensures a * c <= b * c
  {
    assert b * c - a * c == (b - a) * c;
  }

  // ---------------------------------------------------------- /city/:city

  datatype CityStats = CityStats(
    total: nat, averagePrice: real, averageRating: real, byType: seq<TypeAverage>, availabilityRate: real)

  /**
   * The `stats` object: all zero with no `byType` entry for a city without
   * listings; otherwise the mean price, the mean truthy score (0 when none),
   * the per-type counts and mean prices and the share of available listings.
   */
  method CityStatistics(ls: seq<Listing>) returns (stats: CityStats)
    ensures stats.total == |ls|
    ensures |ls| == 0 ==> stats == CityStats(0, 0.0, 0.0, [], 0.0)
    ensures |ls| > 0 ==>
      && stats.averagePrice == Mean(Prices(ls))
      && Min(Prices(ls)) <= stats.averagePrice <= Max(Prices(ls))
      && stats.availabilityRate == Percent(AvailableCount(ls), |ls|)
    ensures 0.0 <= stats.availabilityRate <= 100.0
    ensures stats.averageRating == AverageRating(ls)
    ensures |stats.byType| == |Kinds(ls)| && SumInt(AverageCounts(stats.byType)) == |ls|
    ensures forall k :: 0 <= k < |stats.byType| ==>
      && stats.byType[k].kind == Kinds(ls)[k]
      && stats.byType[k].count == |OfKind(ls, Kinds(ls)[k])| > 0
      && stats.byType[k].avgPrice == Mean(Prices(OfKind(ls, Kinds(ls)[k])))
  {
    stats := CityStats(|ls|, 0.0, 0.0, [], 0.0);
    if |ls| > 0 {
      MeanBounds(Prices(ls));
      stats := stats.(averagePrice := Mean(Prices(ls)));
      if |RatedScores(ls)| > 0 {
        stats := stats.(averageRating := Mean(RatedScores(ls)));
      }
      var byType := AveragePriceByType(ls);
      stats := stats.(byType := byType);
      var availableCount := AvailableCount(ls);
      PercentBounds(availableCount, |ls|);
      stats := stats.(availabilityRate := Percent(availableCount, |ls|));
    }
  }

  // -------------------------------------------------- /:id/price-history

  /**
   * The `stats` of the window. With no sample in the window `Math.min` and
   * `Math.max` give infinities and the average is NaN, which the JSON response
   * carries as `null`: the model gives `None` for all three.
   */
  datatype WindowStats = WindowStats(min: Option<real>, max: Option<real>, average: Option<real>)

  function StatsOf(prices: seq<real>): (s: WindowStats)
    ensures s.min.None? <==> |prices| == 0
    ensures s.max.None? <==> |prices| == 0
    ensures s.average.None? <==> |prices| == 0
    ensures |prices| > 0 ==>
      && s.min.value in prices && s.max.value in prices
      && (forall x :: x in prices ==> s.min.value <= x <= s.max.value)
      && s.min.value <= s.average.value <= s.max.value
      && s.average.value == Mean(prices)
  {
    if |prices| == 0 then WindowStats(None, None, None)
    else
      MeanBounds(prices);
      WindowStats(Some(Min(prices)), Some(Max(prices)), Some(Mean(prices)))
  }

  datatype HistoryResponse = HistoryResponse(
    accommodationId: nat, name: string, currentPrice: real,
    history: seq<PriceSample>, trend: real, stats: WindowStats)

  /** The 404 answer. */
  datatype RouteError = NotFound

  /**
   * The `/:id/price-history` answer for a document: the in-window samples
   * oldest first (all of them, each dated on or after the cutoff), the trend
   * over the same days, and their statistics.
   */
  function HistoryOf(l: Listing, now: int, days: int): (v: HistoryResponse)
    requires TrendDefined(l.priceHistory, days, now)
    ensures v.accommodationId == l.id && v.currentPrice == l.currentPrice
    ensures v.trend == Trend(l.priceHistory, now, days)
    ensures |v.history| == |Window(l.priceHistory, Cutoff(days, now))|
    ensures forall i :: 0 <= i < |v.history| ==> v.history[i].date >= Cutoff(days, now) && v.history[i] in l.priceHistory
    ensures forall i, j :: 0 <= i < j < |v.history| ==> v.history[i].date <= v.history[j].date
    ensures forall s :: s in l.priceHistory && s.date >= Cutoff(days, now) ==> s in v.history
    ensures v.name == l.name
    ensures v.stats == StatsOf(SamplePrices(v.history))
    ensures v.stats.average.None? <==> |v.history| == 0
    ensures |v.history| > 0 ==>
      && v.stats.min.Some? && v.stats.average.Some? && v.stats.max.Some?
      && v.stats.min.value <= v.stats.average.value <= v.stats.max.value
  {
    var history := Recent(l.priceHistory, days, now);
    RecentInWindow(l.priceHistory, days, now);
    HistoryResponse(l.id, l.name, l.currentPrice, history, Trend(l.priceHistory, now, days),
                    StatsOf(SamplePrices(history)))
  }

  /**
   * `/:id/price-history` for the document `findById` returned, `days`
   * defaulting to 30: 404 exactly when there is none, otherwise the answer
   * for that document.
   */
  function PriceHistoryRoute(found: Option<Listing>, now: int, days: int := 30): (r: Result<HistoryResponse, RouteError>)
    requires found.Some? ==> TrendDefined(found.value.priceHistory, days, now)
    ensures r.Failure? <==> found.None?
    ensures r.Success? ==> r.value == HistoryOf(found.value, now, days)
  {
    match found
    case None => Failure(NotFound)
    case Some(l) => Success(HistoryOf(l, now, days))
  }
}
