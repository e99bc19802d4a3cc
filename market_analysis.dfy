/**
 * `generateMarketAnalysis` of `server/services/analysisService.js`: the city's
 * market analysis document built from its active listings, with the `byType`
 * arrays, the band percentages, the alerts and the recommendations built by
 * `forEach`/`push` as loops and pushes.
 */
module Market {
  import opened Wrappers
  import opened Schema
  import opened Numeric
  import opened Listings
  import opened Grouping
  import opened Demand
  import opened MarketStats

  /** An entry of `priceAnalysis.byType`. */
  datatype TypePrice = TypePrice(kind: AccommodationType, averagePrice: real, count: nat)

  /** An entry of `occupancyAnalysis.byType`. */
  datatype TypeOccupancy = TypeOccupancy(kind: AccommodationType, occupancyRate: real, count: nat)

  datatype PriceAnalysis = PriceAnalysis(
    averagePrice: real, medianPrice: real, minPrice: real, maxPrice: real, priceVariation: real,
    byType: seq<TypePrice>)

  datatype OccupancyAnalysis = OccupancyAnalysis(
    averageOccupancy: real, totalAccommodations: nat, availableAccommodations: nat, occupancyRate: real,
    byType: seq<TypeOccupancy>)

  /** An entry of `distributionByScore`. */
  datatype ScoreBand = ScoreBand(range: ScoreRange, count: nat, percentage: real)

  datatype RatingAnalysis = RatingAnalysis(averageRating: real, totalReviews: nat, distributionByScore: seq<ScoreBand>)

  /** An alert; the message text is formatting only. */
  datatype Alert = Alert(kind: AlertType, severity: Tier, affectedAccommodations: nat)

  /** The two recommendations the engine can make. */
  datatype Recommendation = HighDemandDetected | WidePriceSpread

  /** The `priority` each recommendation is pushed with. */
  function Priority(r: Recommendation): Tier
  {
    match r
    case HighDemandDetected => High
    case WidePriceSpread => Medium
  }

  /** The `demandAnalysis` part: the fields copied from `analyzeCityDemand`. */
  datatype DemandSummary = DemandSummary(level: DemandLevel, score: int, trend: DemandTrend, factors: seq<Factor>)

  datatype MarketAnalysis = MarketAnalysis(
    city: string,
    state: string,
    demand: DemandSummary,
    price: PriceAnalysis,
    occupancy: OccupancyAnalysis,
    rating: RatingAnalysis,
    topPerformers: seq<RankEntry>,
    priceLeaders: seq<RankEntry>,
    alerts: seq<Alert>,
    recommendations: seq<Recommendation>)

  /** The error thrown when the city has no active listing. */
  datatype AnalysisError = NoAccommodations

  function PriceCounts(b: seq<TypePrice>): (s: seq<int>)
    ensures |s| == |b|
  {
    seq(|b|, k requires 0 <= k < |b| => b[k].count)
  }

  function OccupancyCounts(b: seq<TypeOccupancy>): (s: seq<int>)
    ensures |s| == |b|
  {
    seq(|b|, k requires 0 <= k < |b| => b[k].count)
  }

  /** `priceAnalysis.byType`: one entry per type present, in first-occurrence order, with its size and mean price. */
  predicate PriceTypesOf(ls: seq<Listing>, byType: seq<TypePrice>)
  {
    && |byType| == |Kinds(ls)|
    && (forall k :: 0 <= k < |byType| ==>
      && byType[k].kind == Kinds(ls)[k]
      && byType[k].count == |OfKind(ls, Kinds(ls)[k])| > 0
      && byType[k].averagePrice == Mean(Prices(OfKind(ls, Kinds(ls)[k]))))
    && SumInt(PriceCounts(byType)) == |ls|
  }

  /** `occupancyAnalysis.byType`: one entry per type present, in first-occurrence order, with its size and rate. */
  predicate OccupancyTypesOf(ls: seq<Listing>, byType: seq<TypeOccupancy>)
  {
    && |byType| == |Kinds(ls)|
    && (forall k :: 0 <= k < |byType| ==>
      && byType[k].kind == Kinds(ls)[k]
      && byType[k].count == |OfKind(ls, Kinds(ls)[k])| > 0
      && byType[k].occupancyRate == OccupancyRate(OfKind(ls, Kinds(ls)[k])))
    && SumInt(OccupancyCounts(byType)) == |ls|
  }

  /** The `priceAnalysis` object: mean, upper-middle median, extremes, variation and per-type entries. */
  predicate PriceAnalysisOf(ls: seq<Listing>, p: PriceAnalysis)
    requires |ls| > 0 && Min(Prices(ls)) != 0.0
  {
    && p.averagePrice == AveragePriceOf(ls) && p.medianPrice == MedianPrice(ls)
    && p.minPrice == Min(Prices(ls)) && p.maxPrice == Max(Prices(ls))
    && p.priceVariation == PriceVariation(ls)
    && PriceTypesOf(ls, p.byType)
  }

  /** The `occupancyAnalysis` object: the overall rate (twice), the counts and per-type entries. */
  predicate OccupancyAnalysisOf(ls: seq<Listing>, o: OccupancyAnalysis)
    requires |ls| > 0
  {
    && o.averageOccupancy == OccupancyRate(ls) && o.occupancyRate == OccupancyRate(ls)
    && o.totalAccommodations == |ls| && o.availableAccommodations == AvailableCount(ls)
    && OccupancyTypesOf(ls, o.byType)
  }

  /** The `ratingAnalysis` object: mean truthy score, total reviews and the four bands in range order. */
  predicate RatingAnalysisOf(ls: seq<Listing>, r: RatingAnalysis)
    requires |Rated(ls)| > 0
  {
    && r.averageRating == AverageRating(ls) && r.totalReviews == TotalReviews(ls)
    && |r.distributionByScore| == 4
    && forall k :: 0 <= k < 4 ==>
      && r.distributionByScore[k].range == Ranges[k]
      && r.distributionByScore[k].count == BandCount(ls, Ranges[k])
      && r.distributionByScore[k].percentage == Percent(BandCount(ls, Ranges[k]), |Rated(ls)|)
  }

  /** The recommendations in push order: high demand first, then the wide price spread. */
  function RecommendationsFor(level: DemandLevel, variation: real): (recs: seq<Recommendation>)
    ensures HighDemandDetected in recs <==> level == Alta || level == MuitoAlta
    ensures WidePriceSpread in recs <==> variation > 100.0
    ensures |recs| == (if level == Alta || level == MuitoAlta then 1 else 0) + (if variation > 100.0 then 1 else 0)
    ensures |recs| == 2 ==> recs == [HighDemandDetected, WidePriceSpread]
  {
    (if level == Alta || level == MuitoAlta then [HighDemandDetected] else [])
    + (if variation > 100.0 then [WidePriceSpread] else [])
  }

  /**
   * The `Object.entries(typeGroups).forEach` that pushes one entry per group: one
   * per type present, in first-occurrence order, with the group's mean price and
   * size; the sizes add up to the number of listings.
   */
  method PriceByType(ls: seq<Listing>) returns (byType: seq<TypePrice>)
    ensures PriceTypesOf(ls, byType)
  {
    var ks, groups := GroupByKind(ls);
    byType := [];
    var k := 0;
    while k < |ks|
      invariant 0 <= k <= |ks|
      invariant |byType| == k
      invariant forall j :: 0 <= j < k ==>
        |groups[j]| > 0 && byType[j] == TypePrice(ks[j], Mean(Prices(groups[j])), |groups[j]|)
    {
      KindsNonEmpty(ls, ks[k]);
      var prices := Prices(groups[k]);
      byType := byType + [TypePrice(ks[k], Mean(prices), |prices|)];
      k := k + 1;
    }
    assert PriceCounts(byType) == Sizes(ls);
    CountsPartition(ls);
  }

  /**
   * The `Object.keys(typeGroups).forEach` of the occupancy analysis: per type,
   * `(count - available) / count * 100` over the listings of that type.
   */
  method OccupancyByType(ls: seq<Listing>) returns (byType: seq<TypeOccupancy>)
    ensures OccupancyTypesOf(ls, byType)
  {
    var ks := Kinds(ls);
    byType := [];
    var k := 0;
    while k < |ks|
      invariant 0 <= k <= |ks|
      invariant |byType| == k
      invariant forall j :: 0 <= j < k ==>
        |OfKind(ls, ks[j])| > 0 && byType[j] == TypeOccupancy(ks[j], OccupancyRate(OfKind(ls, ks[j])), |OfKind(ls, ks[j])|)
    {
      var typeAccs := OfKind(ls, ks[k]);
      KindsNonEmpty(ls, ks[k]);
      byType := byType + [TypeOccupancy(ks[k], OccupancyRate(typeAccs), |typeAccs|)];
      k := k + 1;
    }
    assert OccupancyCounts(byType) == Sizes(ls);
    CountsPartition(ls);
  }

  /**
   * The `distributionByScore.forEach` that overwrites each zero percentage with
   * `count / rated * 100`; ranges and counts are left as they are.
   */
  method AssignPercentages(bands: seq<ScoreBand>, rated: nat) returns (out: seq<ScoreBand>)
    requires rated > 0
    ensures |out| == |bands|
    ensures forall k :: 0 <= k < |bands| ==>
      && out[k].range == bands[k].range
      && out[k].count == bands[k].count
      && out[k].percentage == Percent(bands[k].count, rated)
  {
    out := bands;
    var k := 0;
    while k < |out|
      invariant 0 <= k <= |out| == |bands|
      invariant forall j :: 0 <= j < |bands| ==> out[j].range == bands[j].range && out[j].count == bands[j].count
      invariant forall j :: 0 <= j < k ==> out[j].percentage == Percent(bands[j].count, rated)
    {
      out := out[k := out[k].(percentage := Percent(out[k].count, rated))];
      k := k + 1;
    }
  }

  /** The rating analysis: the four bands in range order, their percentages of the rated listings. */
  method AnalyzeRatings(ls: seq<Listing>) returns (r: RatingAnalysis)
    requires |Rated(ls)| > 0
    ensures RatingAnalysisOf(ls, r)
    ensures r.distributionByScore[0].percentage + r.distributionByScore[1].percentage
      + r.distributionByScore[2].percentage + r.distributionByScore[3].percentage == 100.0
  {
    var bands := [ScoreBand(Below5, BandCount(ls, Below5), 0.0), ScoreBand(From5To7, BandCount(ls, From5To7), 0.0),
                  ScoreBand(From7To8_5, BandCount(ls, From7To8_5), 0.0), ScoreBand(From8_5To10, BandCount(ls, From8_5To10), 0.0)];
    bands := AssignPercentages(bands, |Rated(ls)|);
    BandPercentagesSum(ls);
    r := RatingAnalysis(AverageRating(ls), TotalReviews(ls), bands);
  }

  /** `highPriceCount`: the listings whose 7-day trend exceeds 20%. */
  function SurgeCount(ls: seq<Listing>, now: int): nat
  {
    |Filter(ls, RisingBy(now, 7, 20.0))|
  }

  /** `highPriceCount > accommodations.length * 0.3`, in whole numbers: more than 3 in 10. */
  lemma {:induction false} SurgeThreshold(c: nat, n: nat)
    ensures (c as real) > (n as real) * 0.3 <==> 10 * c > 3 * n
  {
  }

  /** An occupancy rate above 80% means more than 4 in 5 listings are occupied. */
  lemma {:induction false} LowAvailabilityThreshold(ls: seq<Listing>)
    requires |ls| > 0
    ensures OccupancyRate(ls) > 80.0 <==> 5 * (|ls| - AvailableCount(ls)) > 4 * |ls|
  {
    PercentExceeds(|ls| - AvailableCount(ls), |ls|, 80.0);
  }

  /**
   * The alerts, in push order: 'price_surge' (severity high) iff more than 30% of
   * the listings rose by over 20% in a week, then 'low_availability' (severity
   * high) iff the occupancy rate exceeds 80%, naming the occupied listings.
   */
  method Alerts(ls: seq<Listing>, now: int) returns (alerts: seq<Alert>)
    requires |ls| > 0
    ensures alerts == (if (SurgeCount(ls, now) as real) > (|ls| as real) * 0.3
                       then [Alert(PriceSurge, High, SurgeCount(ls, now))] else [])
                    + (if OccupancyRate(ls) > 80.0
                       then [Alert(LowAvailability, High, |ls| - AvailableCount(ls))] else [])
  {
    alerts := [];
    var highPriceCount := SurgeCount(ls, now);
    if (highPriceCount as real) > (|ls| as real) * 0.3 {
      alerts := alerts + [Alert(PriceSurge, High, highPriceCount)];
    }
    if OccupancyRate(ls) > 80.0 {
      alerts := alerts + [Alert(LowAvailability, High, |ls| - AvailableCount(ls))];
    }
  }

  /** Which alerts fire, and with what, stated one by one. */
  lemma {:induction false} AlertsListed(alerts: seq<Alert>, surge: nat, n: nat, occupancy: real, occupied: nat)
    requires alerts == (if (surge as real) > (n as real) * 0.3 then [Alert(PriceSurge, High, surge)] else [])
                     + (if occupancy > 80.0 then [Alert(LowAvailability, High, occupied)] else [])
    ensures (exists a :: a in alerts && a.kind == PriceSurge) <==> 10 * surge > 3 * n
    ensures (exists a :: a in alerts && a.kind == LowAvailability) <==> occupancy > 80.0
    ensures forall a :: a in alerts ==> a.severity == High
    ensures forall a :: a in alerts && a.kind == LowAvailability ==> a.affectedAccommodations == occupied
    ensures forall a :: a in alerts ==> a.kind in {PriceSurge, LowAvailability}
  {
    SurgeThreshold(surge, n);
    if 10 * surge > 3 * n {
      assert alerts[0] == Alert(PriceSurge, High, surge);
    }
    if occupancy > 80.0 {
      assert alerts[|alerts| - 1] == Alert(LowAvailability, High, occupied);
    }
  }

  /**
   * The recommendations, in push order: high demand iff the level is 'alta' or
   * 'muito alta', then the wide price spread iff the variation exceeds 100%.
   */
  method Recommendations(level: DemandLevel, variation: real) returns (recs: seq<Recommendation>)
    ensures recs == RecommendationsFor(level, variation)
  {
    recs := [];
    if level == Alta || level == MuitoAlta {
      recs := recs + [HighDemandDetected];
    }
    if variation > 100.0 {
      recs := recs + [WidePriceSpread];
    }
  }

  /** The price analysis: mean, upper-middle median, extremes, variation, and the per-type entries. */
  method AnalyzePrices(ls: seq<Listing>) returns (p: PriceAnalysis)
    requires |ls| > 0 && Min(Prices(ls)) != 0.0
    ensures PriceAnalysisOf(ls, p)
    ensures p.minPrice <= p.averagePrice <= p.maxPrice && p.minPrice <= p.medianPrice <= p.maxPrice
  {
    AveragePriceOfBounds(ls);
    MedianPriceBounds(ls);
    var byType := PriceByType(ls);
    p := PriceAnalysis(AveragePriceOf(ls), MedianPrice(ls), Min(Prices(ls)), Max(Prices(ls)), PriceVariation(ls), byType);
  }

  /** The occupancy analysis: overall rate (reported twice, as average and as rate), counts and per-type entries. */
  method AnalyzeOccupancy(ls: seq<Listing>) returns (o: OccupancyAnalysis)
    requires |ls| > 0
    ensures OccupancyAnalysisOf(ls, o)
    ensures 0.0 <= o.occupancyRate <= 100.0 && o.availableAccommodations <= |ls|
  {
    var availableCount := AvailableCount(ls);
    var rate := OccupancyRate(ls);
    var byType := OccupancyByType(ls);
    o := OccupancyAnalysis(rate, |ls|, availableCount, rate, byType);
  }

  /**
   * `generateMarketAnalysis(city)` on the city's active listings: an error when
   * there are none, otherwise the analysis, stating the city's state as that of
   * its first listing. The demand part is `analyzeCityDemand` on the same listings.
   * The divisions by the least price and by the rated count have no guard in the
   * code; both are required to be defined.
   */
  method GenerateMarketAnalysis(ls: seq<Listing>, city: string, now: int) returns (r: Result<MarketAnalysis, AnalysisError>)
    requires |ls| > 0 ==> Min(Prices(ls)) != 0.0 && |Rated(ls)| > 0
    ensures r.Failure? <==> |ls| == 0
    ensures r.Success? ==>
      var a := r.value;
      && a.city == city && a.state == ls[0].state
      && a.demand.level == LevelOf(RawScore(ls, now))
      && a.demand.score == Round(RawScore(ls, now))
      && ValidDemandScore(a.demand.score)
      && a.demand.trend == TrendOf(PricePoints(PriceIncreaseRate(ls, now)), OccupancyPoints(OccupancyRate(ls)))
      && a.demand.factors == Factors(OccupancyRate(ls), PriceIncreaseRate(ls, now), HighRatingRate(ls))
      && PriceAnalysisOf(ls, a.price)
      && OccupancyAnalysisOf(ls, a.occupancy)
      && RatingAnalysisOf(ls, a.rating)
      && a.topPerformers == ScoreEntries(TopRated(ls))
      && a.priceLeaders == PriceEntries(PriceLeaders(ls))
      && a.alerts == (if (SurgeCount(ls, now) as real) > (|ls| as real) * 0.3
                      then [Alert(PriceSurge, High, SurgeCount(ls, now))] else [])
                   + (if OccupancyRate(ls) > 80.0
                      then [Alert(LowAvailability, High, |ls| - AvailableCount(ls))] else [])
      && a.recommendations == RecommendationsFor(a.demand.level, PriceVariation(ls))
      && (HighDemandDetected in a.recommendations <==> a.demand.level == Alta || a.demand.level == MuitoAlta)
      && (WidePriceSpread in a.recommendations <==> PriceVariation(ls) > 100.0)
  {
    if |ls| == 0 {
      return Failure(NoAccommodations);
    }
    var demandData := AnalyzeCityDemand(ls, now);
    var priceAnalysis := AnalyzePrices(ls);
    var occupancyAnalysis := AnalyzeOccupancy(ls);
    var ratingAnalysis := AnalyzeRatings(ls);
    var topPerformers := ScoreEntries(TopRated(ls));
    var priceLeaders := PriceEntries(PriceLeaders(ls));
    var alerts := Alerts(ls, now);
    var recommendations := Recommendations(demandData.level, priceAnalysis.priceVariation);
    var demand := DemandSummary(demandData.level, demandData.score, demandData.trend, demandData.factors);
    r := Success(MarketAnalysis(city, ls[0].state, demand, priceAnalysis, occupancyAnalysis, ratingAnalysis,
                                topPerformers, priceLeaders, alerts, recommendations));
  }
}
