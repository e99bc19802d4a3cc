/**
 * The aggregations of `server/routes/analysis.js` once the city's active listings
 * have been read: `/trends` (per-listing windows and trends, their mean and
 * three buckets), `/comparison` (per-type price and rating statistics with the
 * interpolated median) and `/occupancy` (overall and per-type counters).
 */
module AnalysisRoutes {
  import opened Schema
  import opened Numeric
  import opened Sorting
  import opened Listings
  import opened PriceHistory
  import opened Grouping
  import opened Demand
  import opened MarketStats

  // ---------------------------------------------------------------- /trends

  /** An entry of a returned `history`: the sample without its availability fields. */
  datatype PricePoint = PricePoint(date: int, price: real)

  function Points(w: seq<PriceSample>): (r: seq<PricePoint>)
    ensures |r| == |w|
    ensures forall i :: 0 <= i < |w| ==> r[i] == PricePoint(w[i].date, w[i].price)
  {
    seq(|w|, i requires 0 <= i < |w| => PricePoint(w[i].date, w[i].price))
  }

  /** An entry of `accommodationTrends`. */
  datatype AccommodationTrend = AccommodationTrend(
    accommodationId: nat, name: string, kind: AccommodationType, currentPrice: real,
    trend: real, history: seq<PricePoint>)

  /** The `map` body: the listing's trend over `days` and its in-window samples, oldest first. */
  function TrendOfListing(l: Listing, days: int, now: int): AccommodationTrend
    requires TrendDefined(l.priceHistory, days, now)
  {
    AccommodationTrend(l.id, l.name, l.kind, l.currentPrice, Trend(l.priceHistory, now, days),
                       Points(Recent(l.priceHistory, days, now)))
  }

  /**
   * The returned history holds only samples dated on or after the cutoff, in
   * non-decreasing date order, and every sample of the window appears in it.
   */
  lemma {:induction false} TrendHistoryInWindow(l: Listing, days: int, now: int)
    requires TrendDefined(l.priceHistory, days, now)
    ensures var hs := TrendOfListing(l, days, now).history;
      && |hs| == |Window(l.priceHistory, Cutoff(days, now))|
      && (forall i :: 0 <= i < |hs| ==> hs[i].date >= Cutoff(days, now))
      && (forall i, j :: 0 <= i < j < |hs| ==> hs[i].date <= hs[j].date)
      && (forall s :: s in l.priceHistory && s.date >= Cutoff(days, now) ==> PricePoint(s.date, s.price) in hs)
  {
    var r := Recent(l.priceHistory, days, now);
    var hs := TrendOfListing(l, days, now).history;
    RecentInWindow(l.priceHistory, days, now);
    forall s | s in l.priceHistory && s.date >= Cutoff(days, now) ensures PricePoint(s.date, s.price) in hs {
      var i :| 0 <= i < |r| && r[i] == s;
      assert hs[i] == PricePoint(s.date, s.price);
    }
  }

  function TrendsOf(ls: seq<Listing>, days: int, now: int): (ts: seq<AccommodationTrend>)
    requires TrendsDefined(ls, days, now)
    ensures |ts| == |ls|
    ensures forall i :: 0 <= i < |ls| ==> ts[i] == TrendOfListing(ls[i], days, now)
  {
    seq(|ls|, i requires 0 <= i < |ls| => TrendOfListing(ls[i], days, now))
  }

  function TrendValues(ts: seq<AccommodationTrend>): (r: seq<real>)
    ensures |r| == |ts|
    ensures forall i :: 0 <= i < |ts| ==> r[i] == ts[i].trend
  {
    seq(|ts|, i requires 0 <= i < |ts| => ts[i].trend)
  }

  /** `reduce((sum, t) => sum + t.trend, 0) / priceTrends.length`: NaN for no listings, so required non-empty. */
  function OverallTrend(ts: seq<AccommodationTrend>): real
    requires |ts| > 0
  {
    Mean(TrendValues(ts))
  }

  lemma {:induction false} OverallTrendBounds(ts: seq<AccommodationTrend>)
    requires |ts| > 0
    ensures Min(TrendValues(ts)) <= OverallTrend(ts) <= Max(TrendValues(ts))
  {
    MeanBounds(TrendValues(ts));
  }

  predicate Increasing(t: AccommodationTrend)
  {
    t.trend > 5.0
  }

  predicate Stable(t: AccommodationTrend)
  {
    -5.0 <= t.trend <= 5.0
  }

  predicate Decreasing(t: AccommodationTrend)
  {
    t.trend < -5.0
  }

  datatype TrendSummary = TrendSummary(increasing: nat, stable: nat, decreasing: nat)

  /** The `summary` counts: each listing lands in exactly one bucket, so they add up to the listing count. */
  function Summarize(ts: seq<AccommodationTrend>): (s: TrendSummary)
    ensures s.increasing + s.stable + s.decreasing == |ts|
    ensures s.increasing == |Filter(ts, Increasing)|
    ensures s.stable == |Filter(ts, Stable)|
    ensures s.decreasing == |Filter(ts, Decreasing)|
  {
    FilterPartition3(ts, Increasing, Stable, Decreasing);
    TrendSummary(|Filter(ts, Increasing)|, |Filter(ts, Stable)|, |Filter(ts, Decreasing)|)
  }

  datatype TrendsResponse = TrendsResponse(
    city: string, days: int, startDate: int, endDate: int,
    overallTrend: real, accommodationTrends: seq<AccommodationTrend>, summary: TrendSummary)

  /** The `/trends/:city` response for the city's listings, `days` defaulting to 30. */
  function MarketTrends(city: string, ls: seq<Listing>, now: int, days: int := 30): (r: TrendsResponse)
    requires |ls| > 0 && TrendsDefined(ls, days, now)
    ensures r.startDate == Cutoff(days, now) && r.endDate == now
    ensures |r.accommodationTrends| == |ls|
    ensures forall i :: 0 <= i < |ls| ==>
      r.accommodationTrends[i].accommodationId == ls[i].id
      && r.accommodationTrends[i].trend == Trend(ls[i].priceHistory, now, days)
    ensures r.summary.increasing + r.summary.stable + r.summary.decreasing == |ls|
    ensures Min(TrendValues(r.accommodationTrends)) <= r.overallTrend <= Max(TrendValues(r.accommodationTrends))
  {
    var ts := TrendsOf(ls, days, now);
    OverallTrendBounds(ts);
    TrendsResponse(city, days, Cutoff(days, now), now, OverallTrend(ts), ts, Summarize(ts))
  }

  // ------------------------------------------------------------ /comparison

  /**
   * `sortedPrices.length % 2 === 0 ? (s[mid - 1] + s[mid]) / 2 : s[mid]` on an
   * ascending sequence: the middle element, or the mean of the two middle ones.
   */
  function MiddleOf(s: seq<real>): real
    requires |s| > 0
  {
    var mid := |s| / 2;
    if |s| % 2 == 0 then (s[mid - 1] + s[mid]) / 2.0 else s[mid]
  }

  function InterpolatedMedian(prices: seq<real>): real
    requires |prices| > 0
  {
    MiddleOf(SortBy(prices, Identity))
  }

  /** On an ascending sequence the middle value lies between the two middle elements. */
  lemma {:induction false} MiddleOfBetween(s: seq<real>)
    requires |s| > 0 && SortedBy(s, Identity)
    ensures s[(|s| - 1) / 2] <= MiddleOf(s) <= s[|s| / 2]
  {
    var lo, hi := (|s| - 1) / 2, |s| / 2;
    if lo < hi {
      assert Identity(s[lo]) <= Identity(s[hi]);
    }
  }

  /**
   * The interpolated median lies between the two middle elements of the sorted
   * prices (which coincide for an odd count, where it is one of the prices), and
   * so between the least and the greatest price.
   */
  lemma {:induction false} InterpolatedMedianBounds(prices: seq<real>)
    requires |prices| > 0
    ensures var s := SortBy(prices, Identity);
      s[(|s| - 1) / 2] <= InterpolatedMedian(prices) <= s[|s| / 2]
    ensures |prices| % 2 == 1 ==> InterpolatedMedian(prices) in prices
    ensures Min(prices) <= InterpolatedMedian(prices) <= Max(prices)
  {
    var s := SortBy(prices, Identity);
    var lo, hi := (|s| - 1) / 2, |s| / 2;
    MiddleOfBetween(s);
    SortedElementFrom(prices, Identity, lo);
    SortedElementFrom(prices, Identity, hi);
    assert |prices| % 2 == 1 ==> lo == hi;
  }

  /** On two prices the comparison median is their mean, where the engine's median is the larger one. */
  lemma {:induction false} MediansDifferOnEvenCount()
    ensures InterpolatedMedian([100.0, 200.0]) == 150.0
    ensures SortBy([100.0, 200.0], Identity)[2 / 2] == 200.0
  {
    assert Identity(100.0) <= Identity(200.0);
    OrderedPairKept(100.0, 200.0, Identity);
  }

  /** An entry of `comparison` after the second `forEach` (prices and ratings deleted). */
  datatype TypeComparison = TypeComparison(
    kind: AccommodationType, count: nat, averagePrice: real, medianPrice: real,
    averageRating: real, minPrice: real, maxPrice: real)

  function ComparisonCounts(cs: seq<TypeComparison>): (s: seq<int>)
    ensures |s| == |cs|
  {
    seq(|cs|, k requires 0 <= k < |cs| => cs[k].count)
  }

  /** The statistics of one group, as the second `forEach` assigns them. */
  function CompareGroup(t: AccommodationType, g: seq<Listing>): TypeComparison
    requires |g| > 0
  {
    var prices := Prices(g);
    TypeComparison(t, |g|, Mean(prices), InterpolatedMedian(prices), AverageRating(g), Min(prices), Max(prices))
  }

  /** Within a group, the median and the mean price lie between the least and greatest price; no rating gives 0. */
  lemma {:induction false} CompareGroupBounds(t: AccommodationType, g: seq<Listing>)
    requires |g| > 0
    ensures var c := CompareGroup(t, g);
      && c.minPrice <= c.medianPrice <= c.maxPrice
      && c.minPrice <= c.averagePrice <= c.maxPrice
      && (|RatedScores(g)| == 0 ==> c.averageRating == 0.0)
  {
    InterpolatedMedianBounds(Prices(g));
    MeanBounds(Prices(g));
  }

  /** The first `k` entries are the statistics of the first `k` groups. */
  ghost predicate ComparedUpTo(c: seq<TypeComparison>, ks: seq<AccommodationType>, groups: seq<seq<Listing>>, k: nat)
  {
    && |c| == k <= |ks| == |groups|
    && forall j :: 0 <= j < k ==> |groups[j]| > 0 && c[j] == CompareGroup(ks[j], groups[j])
  }

  lemma {:induction false} ComparedStep(c: seq<TypeComparison>, ks: seq<AccommodationType>, groups: seq<seq<Listing>>, k: nat)
    requires ComparedUpTo(c, ks, groups, k) && k < |ks| && |groups[k]| > 0
    ensures ComparedUpTo(c + [CompareGroup(ks[k], groups[k])], ks, groups, k + 1)
  {
    var c' := c + [CompareGroup(ks[k], groups[k])];
    forall j | 0 <= j < k + 1 ensures |groups[j]| > 0 && c'[j] == CompareGroup(ks[j], groups[j]) {
      if j < k {
        assert c'[j] == c[j];
      }
    }
  }

  /**
   * `/comparison/:city`: one entry per type present, in first-occurrence order,
   * with the statistics of that type's listings; the counts add up to
   * `totalAccommodations`.
   */
  method ComparePrices(ls: seq<Listing>) returns (comparison: seq<TypeComparison>, totalAccommodations: nat)
    ensures totalAccommodations == |ls|
    ensures |comparison| == |Kinds(ls)|
    ensures forall k :: 0 <= k < |comparison| ==>
      && |OfKind(ls, Kinds(ls)[k])| > 0
      && comparison[k] == CompareGroup(Kinds(ls)[k], OfKind(ls, Kinds(ls)[k]))
    ensures forall k :: 0 <= k < |comparison| ==>
      && comparison[k].minPrice <= comparison[k].medianPrice <= comparison[k].maxPrice
      && comparison[k].minPrice <= comparison[k].averagePrice <= comparison[k].maxPrice
    ensures SumInt(ComparisonCounts(comparison)) == |ls|
  {
    var ks, groups := GroupByKind(ls);
    comparison := [];
    var k := 0;
    while k < |ks|
      invariant ComparedUpTo(comparison, ks, groups, k)
    {
      KindsNonEmpty(ls, ks[k]);
      ComparedStep(comparison, ks, groups, k);
      comparison := comparison + [CompareGroup(ks[k], groups[k])];
      k := k + 1;
    }
    ComparedAll(ls, groups, comparison);
    totalAccommodations := |ls|;
  }

  /** Once every group is compared, the entries follow the keys, keep their bounds and count every listing. */
  lemma {:induction false} ComparedAll(ls: seq<Listing>, groups: seq<seq<Listing>>, comparison: seq<TypeComparison>)
    requires ComparedUpTo(comparison, Kinds(ls), groups, |Kinds(ls)|)
    requires forall k :: 0 <= k < |Kinds(ls)| ==> groups[k] == OfKind(ls, Kinds(ls)[k])
    ensures forall k :: 0 <= k < |comparison| ==>
      && |OfKind(ls, Kinds(ls)[k])| > 0
      && comparison[k] == CompareGroup(Kinds(ls)[k], OfKind(ls, Kinds(ls)[k]))
    ensures forall k :: 0 <= k < |comparison| ==>
      && comparison[k].minPrice <= comparison[k].medianPrice <= comparison[k].maxPrice
      && comparison[k].minPrice <= comparison[k].averagePrice <= comparison[k].maxPrice
    ensures SumInt(ComparisonCounts(comparison)) == |ls|
  {
    var ks := Kinds(ls);
    forall k | 0 <= k < |comparison|
      ensures comparison[k].minPrice <= comparison[k].medianPrice <= comparison[k].maxPrice
      ensures comparison[k].minPrice <= comparison[k].averagePrice <= comparison[k].maxPrice
    {
      CompareGroupBounds(ks[k], groups[k]);
    }
    assert ComparisonCounts(comparison) == Sizes(ls);
    CountsPartition(ls);
  }

  // ------------------------------------------------------------- /occupancy

  /** A `byType` counter of the occupancy route. */
  datatype TypeCount = TypeCount(kind: AccommodationType, total: nat, available: nat)

  /** The final counters of type `t` over `p`. */
  function CountOf(p: seq<Listing>, t: AccommodationType): TypeCount
  {
    TypeCount(t, |OfKind(p, t)|, AvailableCount(OfKind(p, t)))
  }

  /** `cs` holds, for each key of `ks`, the number of listings of `p` of that type and how many are available. */
  ghost predicate Counted(p: seq<Listing>, ks: seq<AccommodationType>, cs: seq<TypeCount>)
  {
    && ks == Kinds(p)
    && |cs| == |ks|
    && forall k :: 0 <= k < |ks| ==> cs[k] == CountOf(p, ks[k])
  }

  function Bump(c: TypeCount, x: Listing): TypeCount
  {
    TypeCount(c.kind, c.total + 1, c.available + if IsAvailable(x) then 1 else 0)
  }

  /** Appending a listing bumps the counters of its own type and leaves the others as they were. */
  lemma {:induction false} CountOfSnoc(p: seq<Listing>, x: Listing, t: AccommodationType)
    ensures CountOf(p + [x], t) == if x.kind == t then Bump(CountOf(p, t), x) else CountOf(p, t)
  {
    OfKindSnoc(p, x, t);
    if x.kind == t {
      AvailableCountSnoc(OfKind(p, t), x);
    }
  }

  /** After a listing of a type already counted, its counter is bumped and every other counter is still right. */
  lemma {:induction false} CountJoinAt(p: seq<Listing>, x: Listing, ks: seq<AccommodationType>, cs: seq<TypeCount>, q: nat, k: nat)
    requires Counted(p, ks, cs)
    requires q < |ks| && ks[q] == x.kind && k < |ks|
    ensures cs[q := Bump(cs[q], x)][k] == CountOf(p + [x], ks[k])
  {
    CountOfSnoc(p, x, ks[k]);
    assert ks[k] == x.kind <==> k == q;
  }

  /** Counting a listing of a type already seen increments that type's counters and no other. */
  lemma {:induction false} CountJoin(p: seq<Listing>, x: Listing, ks: seq<AccommodationType>, cs: seq<TypeCount>, q: nat)
    requires Counted(p, ks, cs)
    requires q < |ks| && ks[q] == x.kind
    ensures Counted(p + [x], ks, cs[q := Bump(cs[q], x)])
  {
    KindsSnoc(p, x);
    var cs' := cs[q := Bump(cs[q], x)];
    forall k | 0 <= k < |ks| ensures cs'[k] == CountOf(p + [x], ks[k]) {
      CountJoinAt(p, x, ks, cs, q, k);
    }
  }

  /** After a listing of a new type, each old counter is still right and the new one counts that listing. */
  lemma {:induction false} CountOpenAt(p: seq<Listing>, x: Listing, ks: seq<AccommodationType>, cs: seq<TypeCount>, k: nat)
    requires Counted(p, ks, cs)
    requires x.kind !in ks && k <= |ks|
    ensures (cs + [Bump(TypeCount(x.kind, 0, 0), x)])[k] == CountOf(p + [x], (ks + [x.kind])[k])
  {
    if k < |ks| {
      CountOfSnoc(p, x, ks[k]);
    } else {
      OfKindAbsent(p, x.kind);
      CountOfSnoc(p, x, x.kind);
    }
  }

  /** A listing of a new type opens counters starting from zero, then incremented. */
  lemma {:induction false} CountOpen(p: seq<Listing>, x: Listing, ks: seq<AccommodationType>, cs: seq<TypeCount>)
    requires Counted(p, ks, cs)
    requires x.kind !in ks
    ensures Counted(p + [x], ks + [x.kind], cs + [Bump(TypeCount(x.kind, 0, 0), x)])
  {
    KindsSnoc(p, x);
    var ks', cs' := ks + [x.kind], cs + [Bump(TypeCount(x.kind, 0, 0), x)];
    forall k | 0 <= k < |ks'| ensures cs'[k] == CountOf(p + [x], ks'[k]) {
      CountOpenAt(p, x, ks, cs, k);
    }
  }

  /** The `forEach` callback: a zeroed counter for a new type, then `total++` and, if available, `available++`. */
  method Tally(ghost p: seq<Listing>, ks: seq<AccommodationType>, cs: seq<TypeCount>, x: Listing)
    returns (ks': seq<AccommodationType>, cs': seq<TypeCount>)
    requires Counted(p, ks, cs)
    ensures Counted(p + [x], ks', cs')
  {
    var found := IndexOf(ks, x.kind);
    if found.Some? {
      CountJoin(p, x, ks, cs, found.value);
      ks', cs' := ks, cs[found.value := Bump(cs[found.value], x)];
    } else {
      CountOpen(p, x, ks, cs);
      ks', cs' := ks + [x.kind], cs + [Bump(TypeCount(x.kind, 0, 0), x)];
    }
  }

  /** The counting `forEach` over the city's listings. */
  method CountByKind(ls: seq<Listing>) returns (ks: seq<AccommodationType>, cs: seq<TypeCount>)
    ensures ks == Kinds(ls) && |cs| == |ks|
    ensures forall k :: 0 <= k < |ks| ==> cs[k] == CountOf(ls, ks[k])
  {
    ks, cs := [], [];
    assert ls[..0] == [];
    var i := 0;
    while i < |ls|
      invariant 0 <= i <= |ls|
      invariant Counted(ls[..i], ks, cs)
    {
      PrefixSnoc(ls, i);
      ks, cs := Tally(ls[..i], ks, cs, ls[i]);
      i := i + 1;
    }
    assert ls[..i] == ls;
  }

  /** A type present in the city has a non-empty counter whose available count is within its total. */
  lemma {:induction false} CountOfPresent(ls: seq<Listing>, t: AccommodationType)
    requires t in Kinds(ls)
    ensures 0 < CountOf(ls, t).total && CountOf(ls, t).available <= CountOf(ls, t).total
  {
    KindsNonEmpty(ls, t);
  }

  /** A `byType` entry after the second `forEach` has set its rate. */
  datatype TypeOccupancyRate = TypeOccupancyRate(kind: AccommodationType, total: nat, available: nat, occupancyRate: real)

  /** `data.occupancyRate = ((data.total - data.available) / data.total) * 100`. */
  function WithRate(c: TypeCount): (r: TypeOccupancyRate)
    requires 0 < c.total && c.available <= c.total
    ensures r.kind == c.kind && r.total == c.total && r.available == c.available
    ensures 0.0 <= r.occupancyRate <= 100.0
  {
    PercentBounds(c.total - c.available, c.total);
    TypeOccupancyRate(c.kind, c.total, c.available, Percent(c.total - c.available, c.total))
  }

  /** The first `k` entries carry the rates of the first `k` counters. */
  ghost predicate RatedUpTo(b: seq<TypeOccupancyRate>, cs: seq<TypeCount>, k: nat)
  {
    && |b| == k <= |cs|
    && forall j :: 0 <= j < k ==> 0 < cs[j].total && cs[j].available <= cs[j].total && b[j] == WithRate(cs[j])
  }

  lemma {:induction false} RatedStep(b: seq<TypeOccupancyRate>, cs: seq<TypeCount>, k: nat)
    requires RatedUpTo(b, cs, k) && k < |cs| && 0 < cs[k].total && cs[k].available <= cs[k].total
    ensures RatedUpTo(b + [WithRate(cs[k])], cs, k + 1)
  {
    var b' := b + [WithRate(cs[k])];
    forall j | 0 <= j < k + 1 ensures b'[j] == WithRate(cs[j]) {
      if j < k {
        assert b'[j] == b[j];
      }
    }
  }

  /**
   * The k-th entry belongs to the k-th type present, counts that type's
   * listings (at least one) and its available ones (at most all), and carries
   * the occupied share `(total - available) / total * 100`, within [0, 100].
   */
  ghost predicate TypeRateAt(ls: seq<Listing>, e: TypeOccupancyRate, k: nat)
  {
    && k < |Kinds(ls)|
    && e.kind == Kinds(ls)[k]
    && e.total == |OfKind(ls, Kinds(ls)[k])| > 0
    && e.available == AvailableCount(OfKind(ls, Kinds(ls)[k])) <= e.total
    && e.occupancyRate == Percent(e.total - e.available, e.total)
    && 0.0 <= e.occupancyRate <= 100.0
  }

  /** Every entry is the one `TypeRateAt` describes for its position. */
  ghost predicate TypeRatesOf(ls: seq<Listing>, byType: seq<TypeOccupancyRate>)
  {
    forall k :: 0 <= k < |byType| ==> TypeRateAt(ls, byType[k], k)
  }

  lemma {:induction false} RatedEntryAt(ls: seq<Listing>, ks: seq<AccommodationType>, cs: seq<TypeCount>, byType: seq<TypeOccupancyRate>, k: nat)
    requires Counted(ls, ks, cs) && RatedUpTo(byType, cs, |cs|) && k < |byType|
    ensures TypeRateAt(ls, byType[k], k)
  {
    assert byType[k] == WithRate(cs[k]) && cs[k] == CountOf(ls, ks[k]);
  }

  /** Once every counter has its rate, the entries follow the keys and keep their bounds. */
  lemma {:induction false} RatedEntries(ls: seq<Listing>, ks: seq<AccommodationType>, cs: seq<TypeCount>, byType: seq<TypeOccupancyRate>)
    requires Counted(ls, ks, cs) && RatedUpTo(byType, cs, |cs|)
    ensures TypeRatesOf(ls, byType)
  {
    forall k | 0 <= k < |byType| ensures TypeRateAt(ls, byType[k], k) {
      RatedEntryAt(ls, ks, cs, byType, k);
    }
  }

  /** Once every counter has its rate, the entries' totals count every listing once. */
  lemma {:induction false} RatedTotals(ls: seq<Listing>, ks: seq<AccommodationType>, cs: seq<TypeCount>, byType: seq<TypeOccupancyRate>)
    requires Counted(ls, ks, cs) && RatedUpTo(byType, cs, |cs|)
    ensures |byType| == |Kinds(ls)| && SumInt(RateTotals(byType)) == |ls|
  {
    assert RateTotals(byType) == Sizes(ls);
    CountsPartition(ls);
  }

  /** The second `forEach`: every counter of a type present gets its occupancy rate. */
  method RateEach(ghost ls: seq<Listing>, ks: seq<AccommodationType>, cs: seq<TypeCount>)
    returns (byType: seq<TypeOccupancyRate>)
    requires Counted(ls, ks, cs)
    ensures RatedUpTo(byType, cs, |cs|)
  {
    byType := [];
    var k := 0;
    while k < |cs|
      invariant RatedUpTo(byType, cs, k)
    {
      CountOfPresent(ls, ks[k]);
      RatedStep(byType, cs, k);
      byType := byType + [WithRate(cs[k])];
      k := k + 1;
    }
  }

  datatype OccupancyOverview = OccupancyOverview(
    total: nat, available: nat, occupied: nat, occupancyRate: real, byType: seq<TypeOccupancyRate>)

  function RateTotals(b: seq<TypeOccupancyRate>): (s: seq<int>)
    ensures |s| == |b|
  {
    seq(|b|, k requires 0 <= k < |b| => b[k].total)
  }

  /**
   * `/occupancy/:city`: occupied is total minus available; per type, available
   * never exceeds total, the rate is `(total - available) / total * 100` within
   * [0, 100], and the per-type totals add up to the overall total. The overall
   * rate divides by the listing count, so the city must have listings.
   */
  method OccupancyByCity(ls: seq<Listing>) returns (o: OccupancyOverview)
    requires |ls| > 0
    ensures o.total == |ls| && o.available == AvailableCount(ls) <= o.total
    ensures o.occupied == o.total - o.available
    ensures o.occupancyRate == Percent(o.total - o.available, o.total) == OccupancyRate(ls)
    ensures |o.byType| == |Kinds(ls)| && SumInt(RateTotals(o.byType)) == |ls|
    ensures TypeRatesOf(ls, o.byType)
  {
    var total := |ls|;
    var available := AvailableCount(ls);
    var ks, cs := CountByKind(ls);
    var byType := RateEach(ls, ks, cs);
    RatedEntries(ls, ks, cs, byType);
    RatedTotals(ls, ks, cs, byType);
    o := OccupancyOverview(total, available, total - available, Percent(total - available, total), byType);
    assert o.byType == byType;
  }
}
