/**
 * `analyzeCityDemand` of `server/services/analysisService.js`: four capped
 * components (occupancy up to 30 points, price increases up to 30, well-rated
 * listings up to 20, recent scraping activity up to 20) summed into a score,
 * a level from the unrounded score, a trend label and the list of factors.
 */
module Demand {
  import opened Wrappers
  import opened Schema
  import opened Numeric
  import opened Listings
  import opened Sorting
  import opened PriceHistory

  /**
   * `acc.getPriceTrend(days) > threshold` under JavaScript arithmetic. Where the
   * oldest in-window price is 0 the trend divides by zero: a positive newest price
   * gives Infinity, which exceeds every threshold; a newest price of 0 gives NaN
   * and a negative one -Infinity, which exceed none.
   */
  predicate TrendAbove(l: Listing, now: int, days: int, threshold: real)
  {
    if TrendDefined(l.priceHistory, days, now) then Trend(l.priceHistory, now, days) > threshold
    else
      var r := Recent(l.priceHistory, days, now);
      r[|r| - 1].price > 0.0
  }

  /**
   * A week that starts at price 0 and ends at a positive price has no finite
   * trend, yet it counts as a rise above every threshold.
   */
  lemma {:induction false} RiseFromZeroCounts(l: Listing, now: int, threshold: real)
    requires l.priceHistory == [PriceSample(now - 3 * DAY, 0.0, true, None), PriceSample(now, 50.0, true, None)]
    ensures !TrendDefined(l.priceHistory, 7, now)
    ensures TrendAbove(l, now, 7, threshold)
  {
    var h := l.priceHistory;
    var c := Cutoff(7, now);
    assert Since(c)(h[0]) && Since(c)(h[1]);
    FilterAll(h, Since(c));
    OrderedPairKept(h[0], h[1], DateKey);
    assert Recent(h, 7, now) == h;
  }

  /** A week that ends at price 0 after starting at 0 (a NaN trend) never counts as a rise. */
  lemma {:induction false} FlatAtZeroNotRising(l: Listing, now: int, threshold: real)
    requires l.priceHistory == [PriceSample(now - 3 * DAY, 0.0, true, None), PriceSample(now, 0.0, true, None)]
    ensures !TrendDefined(l.priceHistory, 7, now)
    ensures !TrendAbove(l, now, 7, threshold)
  {
    var h := l.priceHistory;
    var c := Cutoff(7, now);
    assert Since(c)(h[0]) && Since(c)(h[1]);
    FilterAll(h, Since(c));
    OrderedPairKept(h[0], h[1], DateKey);
    assert Recent(h, 7, now) == h;
  }

  function RisingBy(now: int, days: int, threshold: real): Listing -> bool
  {
    (l: Listing) => TrendAbove(l, now, days, threshold)
  }

  /** Every listing has a computable `days`-day trend (its oldest in-window price is not 0). */
  ghost predicate TrendsDefined(ls: seq<Listing>, days: int, now: int)
  {
    forall i :: 0 <= i < |ls| ==> TrendDefined(ls[i].priceHistory, days, now)
  }

  /** `acc.rating?.score >= 8 && acc.rating?.totalReviews >= 50`: a missing value compares false. */
  predicate HighlyRated(l: Listing)
  {
    l.rating.Some? && l.rating.value.score.Some? && l.rating.value.score.value >= 8.0 && ReviewsAtLeast(l, 50)
  }

  /** `acc.lastScrapedAt >= oneDayAgo`. */
  function ScrapedSince(now: int): Listing -> bool
  {
    (l: Listing) => l.lastScrapedAt >= now - DAY
  }

  /** The share of occupied listings, `(n - available) / n * 100`. */
  function OccupancyRate(ls: seq<Listing>): (r: real)
    requires |ls| > 0
    ensures 0.0 <= r <= 100.0
  {
    PercentBounds(|ls| - AvailableCount(ls), |ls|);
    Percent(|ls| - AvailableCount(ls), |ls|)
  }

  /** The share of listings whose 30-day trend exceeds 10%. */
  function PriceIncreaseRate(ls: seq<Listing>, now: int): (r: real)
    requires |ls| > 0
    ensures 0.0 <= r <= 100.0
  {
    PercentBounds(|Filter(ls, RisingBy(now, 30, 10.0))|, |ls|);
    Percent(|Filter(ls, RisingBy(now, 30, 10.0))|, |ls|)
  }

  /** The share of listings scored at least 8 with at least 50 reviews. */
  function HighRatingRate(ls: seq<Listing>): (r: real)
    requires |ls| > 0
    ensures 0.0 <= r <= 100.0
  {
    PercentBounds(|Filter(ls, HighlyRated)|, |ls|);
    Percent(|Filter(ls, HighlyRated)|, |ls|)
  }

  /** The share of listings scraped within the last day. */
  function ActivityRate(ls: seq<Listing>, now: int): (r: real)
    requires |ls| > 0
    ensures 0.0 <= r <= 100.0
  {
    PercentBounds(|Filter(ls, ScrapedSince(now))|, |ls|);
    Percent(|Filter(ls, ScrapedSince(now))|, |ls|)
  }

  /** `Math.min(30, (occupancyRate / 100) * 30)`: proportional, full marks at 100%. */
  function OccupancyPoints(rate: real): (p: real)
    ensures p <= 30.0
    ensures 0.0 <= rate ==> 0.0 <= p
    ensures rate <= 100.0 ==> p == rate / 100.0 * 30.0
  {
    Min2(30.0, rate / 100.0 * 30.0)
  }

  /** `Math.min(30, (priceIncreaseRate / 50) * 30)`: full marks once half the listings rose. */
  function PricePoints(rate: real): (p: real)
    ensures p <= 30.0
    ensures 0.0 <= rate ==> 0.0 <= p
    ensures rate >= 50.0 ==> p == 30.0
  {
    Min2(30.0, rate / 50.0 * 30.0)
  }

  /** `Math.min(20, (highRatingRate / 50) * 20)`: full marks once half the listings are well rated. */
  function RatingPoints(rate: real): (p: real)
    ensures p <= 20.0
    ensures 0.0 <= rate ==> 0.0 <= p
    ensures rate >= 50.0 ==> p == 20.0
  {
    Min2(20.0, rate / 50.0 * 20.0)
  }

  /** `Math.min(20, (activityRate / 100) * 20)`. */
  function ActivityPoints(rate: real): (p: real)
    ensures p <= 20.0
    ensures 0.0 <= rate ==> 0.0 <= p
    ensures rate <= 100.0 ==> p == rate / 100.0 * 20.0
  {
    Min2(20.0, rate / 100.0 * 20.0)
  }

  /** The unrounded sum of the four components, from the four rates. */
  function ScoreOfRates(occupancy: real, priceIncrease: real, highRating: real, activity: real): real
  {
    OccupancyPoints(occupancy) + PricePoints(priceIncrease) + RatingPoints(highRating) + ActivityPoints(activity)
  }

  /** Rates that are percentages give a score in [0, 100], so its rounding satisfies the schema range. */
  lemma {:induction false} ScoreOfRatesBounds(occupancy: real, priceIncrease: real, highRating: real, activity: real)
    requires 0.0 <= occupancy <= 100.0 && 0.0 <= priceIncrease <= 100.0
    requires 0.0 <= highRating <= 100.0 && 0.0 <= activity <= 100.0
    ensures 0.0 <= ScoreOfRates(occupancy, priceIncrease, highRating, activity) <= 100.0
    ensures ValidDemandScore(Round(ScoreOfRates(occupancy, priceIncrease, highRating, activity)))
  {
    RoundWithin(ScoreOfRates(occupancy, priceIncrease, highRating, activity), 0, 100);
  }

  /** The unrounded `score` after its four increments. */
  function RawScore(ls: seq<Listing>, now: int): real
    requires |ls| > 0
  {
    ScoreOfRates(OccupancyRate(ls), PriceIncreaseRate(ls, now), HighRatingRate(ls), ActivityRate(ls, now))
  }

  /** The score of a city lies in [0, 100], so its rounding satisfies the schema range. */
  lemma {:induction false} RawScoreBounds(ls: seq<Listing>, now: int)
    requires |ls| > 0
    ensures 0.0 <= RawScore(ls, now) <= 100.0
    ensures ValidDemandScore(Round(RawScore(ls, now)))
  {
    ScoreOfRatesBounds(OccupancyRate(ls), PriceIncreaseRate(ls, now), HighRatingRate(ls), ActivityRate(ls, now));
  }

  /** The level thresholds 75 / 50 / 25, applied to the unrounded score. */
  function LevelOf(score: real): (l: DemandLevel)
    ensures l == MuitoAlta <==> score >= 75.0
    ensures l == Alta <==> 50.0 <= score < 75.0
    ensures l == Media <==> 25.0 <= score < 50.0
    ensures l == Baixa <==> score < 25.0
  {
    if score >= 75.0 then MuitoAlta
    else if score >= 50.0 then Alta
    else if score >= 25.0 then Media
    else Baixa
  }

  function LevelRank(l: DemandLevel): nat
  {
    match l
    case Baixa => 0
    case Media => 1
    case Alta => 2
    case MuitoAlta => 3
  }

  /** A higher score never yields a lower level. */
  lemma {:induction false} LevelMonotone(s: real, s': real)
    requires s <= s'
    ensures LevelRank(LevelOf(s)) <= LevelRank(LevelOf(s'))
  {
  }

  /**
   * The level is read from the unrounded score: a score of 74.5 is reported as 75
   * but classified 'alta', where classifying the reported score would give 'muito alta'.
   */
  lemma {:induction false} LevelIgnoresRounding()
    ensures Round(74.5) == 75
    ensures LevelOf(74.5) == Alta && LevelOf(Round(74.5) as real) == MuitoAlta
  {
  }

  /** 'crescente' iff both price and occupancy points exceed 15, 'decrescente' iff price < 5 and occupancy < 15. */
  function TrendOf(pricePoints: real, occupancyPoints: real): (t: DemandTrend)
    ensures t == Crescente <==> pricePoints > 15.0 && occupancyPoints > 15.0
    ensures t == Decrescente <==> pricePoints < 5.0 && occupancyPoints < 15.0
    ensures t == Estavel <==> !(pricePoints > 15.0 && occupancyPoints > 15.0) && !(pricePoints < 5.0 && occupancyPoints < 15.0)
  {
    if pricePoints > 15.0 && occupancyPoints > 15.0 then Crescente
    else if pricePoints < 5.0 && occupancyPoints < 15.0 then Decrescente
    else Estavel
  }

  /** The entries of `factors`; each carries the rate its message prints. */
  datatype Factor =
    | OccupancyFactor(occupancyRate: real)
    | PriceIncreaseFactor(priceIncreaseRate: real)
    | HighRatingFactor(highRatingRate: real)

  /** The `factors` array, in push order. */
  function Factors(occupancyRate: real, priceIncreaseRate: real, highRatingRate: real): seq<Factor>
  {
    var withOccupancy := [OccupancyFactor(occupancyRate)];
    var withPrice := PushIf(withOccupancy, priceIncreaseRate > 20.0, PriceIncreaseFactor(priceIncreaseRate));
    PushIf(withPrice, highRatingRate > 30.0, HighRatingFactor(highRatingRate))
  }

  /** `if (cond) factors.push(f)`. */
  function PushIf(fs: seq<Factor>, cond: bool, f: Factor): seq<Factor>
  {
    if cond then fs + [f] else fs
  }

  /**
   * Occupancy is always the first factor; the price-increase factor is listed iff
   * more than 20% of the listings rose, the rating factor iff more than 30% are
   * well rated, and nothing else is listed.
   */
  lemma {:induction false} FactorsListed(o: real, p: real, h: real)
    ensures var fs := Factors(o, p, h);
      && |fs| >= 1 && fs[0] == OccupancyFactor(o)
      && (PriceIncreaseFactor(p) in fs <==> p > 20.0)
      && (HighRatingFactor(h) in fs <==> h > 30.0)
      && |fs| == 1 + (if p > 20.0 then 1 else 0) + (if h > 30.0 then 1 else 0)
  {
  }

  datatype DemandMetrics = DemandMetrics(occupancyRate: real, priceIncreaseRate: real, highRatingRate: real, activityRate: real)

  /** The result of `analyzeCityDemand`: the "no listings" answer, or the full analysis. */
  datatype DemandReport =
    | NoListings
    | Demand(level: DemandLevel, score: int, trend: DemandTrend, factors: seq<Factor>, metrics: DemandMetrics)

  /** The `demandLevel` field, present in both kinds of answer. */
  function ReportLevel(r: DemandReport): DemandLevel
  {
    if r.NoListings? then Baixa else r.level
  }

  /** The `score` field, present in both kinds of answer. */
  function ReportScore(r: DemandReport): int
  {
    if r.NoListings? then 0 else r.score
  }

  /**
   * `analyzeCityDemand(city)` on the active listings of the city. No listings is
   * not an error: the answer is level 'baixa' with score 0.
   */
  method AnalyzeCityDemand(ls: seq<Listing>, now: int) returns (r: DemandReport)
    ensures r.NoListings? <==> |ls| == 0
    ensures r.NoListings? ==> ReportLevel(r) == Baixa && ReportScore(r) == 0
    ensures ValidDemandScore(ReportScore(r))
    ensures r.Demand? ==>
      && r.score == Round(RawScore(ls, now))
      && r.level == LevelOf(RawScore(ls, now))
      && r.trend == TrendOf(PricePoints(PriceIncreaseRate(ls, now)), OccupancyPoints(OccupancyRate(ls)))
      && r.metrics == DemandMetrics(OccupancyRate(ls), PriceIncreaseRate(ls, now), HighRatingRate(ls), ActivityRate(ls, now))
    ensures r.Demand? ==> r.factors == Factors(OccupancyRate(ls), PriceIncreaseRate(ls, now), HighRatingRate(ls))
  {
    if |ls| == 0 {
      return NoListings;
    }
    var score := 0.0;
    var factors: seq<Factor> := [];

    var occupancyRate := OccupancyRate(ls);
    var occupancyScore := OccupancyPoints(occupancyRate);
    score := score + occupancyScore;
    factors := factors + [OccupancyFactor(occupancyRate)];

    var priceIncreaseRate := PriceIncreaseRate(ls, now);
    var priceScore := PricePoints(priceIncreaseRate);
    score := score + priceScore;
    if priceIncreaseRate > 20.0 {
      factors := factors + [PriceIncreaseFactor(priceIncreaseRate)];
    }
    assert factors == PushIf([OccupancyFactor(occupancyRate)], priceIncreaseRate > 20.0, PriceIncreaseFactor(priceIncreaseRate));

    var highRatingRate := HighRatingRate(ls);
    var ratingScore := RatingPoints(highRatingRate);
    score := score + ratingScore;
    if highRatingRate > 30.0 {
      factors := factors + [HighRatingFactor(highRatingRate)];
    }

    var activityRate := ActivityRate(ls, now);
    var activityScore := ActivityPoints(activityRate);
    score := score + activityScore;

    assert factors == Factors(occupancyRate, priceIncreaseRate, highRatingRate);
    assert score == ScoreOfRates(occupancyRate, priceIncreaseRate, highRatingRate, activityRate);
    ScoreOfRatesBounds(occupancyRate, priceIncreaseRate, highRatingRate, activityRate);
    var level := LevelOf(score);
    var trend := TrendOf(priceScore, occupancyScore);
    r := Demand(level, Round(score), trend, factors,
                DemandMetrics(occupancyRate, priceIncreaseRate, highRatingRate, activityRate));
  }
}
