/**
 * The figures that `server/routes/reports.js` computes before rendering: the
 * `/summary/:city` statistics and per-type summary, the header figures and the
 * 50-row table of `/pdf/:city`, and the rows and summary sheet of `/excel/:city`.
 * Each route answers 404 for a city without listings and builds nothing then.
 */
module Reports {
  import opened Wrappers
  import opened Schema
  import opened Numeric
  import opened Listings
  import opened Grouping
  import opened MarketStats
  import opened TypeTotals

  /** The 404 answer, 'Nenhuma hospedagem encontrada para esta cidade'. */
  datatype ReportError = NoAccommodationsFound

  /**
   * `reduce((sum, acc, _, arr) => sum + acc.rating.score / arr.length, 0)`: each
   * score divided by the length `n` of the array being reduced, then added up.
   * An empty array gives the initial 0 without dividing.
   */
  function ScaledSum(s: seq<real>, n: nat): real
    requires n > 0 || s == []
  {
    if s == [] then 0.0 else ScaledSum(s[..|s| - 1], n) + s[|s| - 1] / (n as real)
  }

  /** Dividing each term by `n` and adding up is dividing the sum by `n`. */
  lemma {:induction false} ScaledSumIsQuotient(s: seq<real>, n: nat)
    requires n > 0
    ensures ScaledSum(s, n) == Sum(s) / (n as real)
  {
    if s != [] {
      var p, x := s[..|s| - 1], s[|s| - 1];
      ScaledSumIsQuotient(p, n);
      assert (Sum(p) + x) / (n as real) == Sum(p) / (n as real) + x / (n as real);
    }
  }

  /** The `rating.average` of the summary (and `avgRating` of both documents), before `toFixed(1)`. */
  function RatingAverage(ls: seq<Listing>): real
  {
    ScaledSum(RatedScores(ls), |RatedScores(ls)|)
  }

  /**
   * The scaled reduce is the mean score of the listings with a truthy score, and
   * 0 when there is none: the same figure as the market analysis' average rating.
   */
  lemma {:induction false} RatingAverageIsMean(ls: seq<Listing>)
    ensures RatingAverage(ls) == AverageRating(ls)
    ensures |Rated(ls)| == 0 ==> RatingAverage(ls) == 0.0
    ensures |Rated(ls)| > 0 ==> RatingAverage(ls) == Mean(RatedScores(ls))
  {
    if |RatedScores(ls)| > 0 {
      ScaledSumIsQuotient(RatedScores(ls), |RatedScores(ls)|);
    }
  }

  /** `!acc.availability.isAvailable`. */
  predicate IsOccupied(l: Listing)
  {
    !IsAvailable(l)
  }

  function OccupiedCount(ls: seq<Listing>): nat
  {
    |Filter(ls, IsOccupied)|
  }

  /** Every listing is either available or occupied, never both. */
  lemma {:induction false} AvailableOccupiedPartition(ls: seq<Listing>)
    ensures AvailableCount(ls) + OccupiedCount(ls) == |ls|
  {
    FilterComplement(ls, IsAvailable, IsOccupied);
  }

  datatype PriceSummary = PriceSummary(average: real, min: real, max: real)
  datatype RatingSummary = RatingSummary(average: real, totalReviews: nat)
  datatype AvailabilitySummary = AvailabilitySummary(available: nat, occupied: nat, rate: real)

  /** The `/summary/:city` document; `generatedAt` is a clock reading and is not modelled. */
  datatype Summary = Summary(
    city: string, totalAccommodations: nat,
    price: PriceSummary, rating: RatingSummary, availability: AvailabilitySummary,
    byType: seq<TypeAverage>)

  /**
   * `/summary/:city` over the city's listings: 404 for none; otherwise price
   * statistics with the least below the mean below the greatest, the mean truthy
   * score, the summed review counts, an availability split that covers every
   * listing, and one `byType` entry per type present whose counts add up to the
   * total.
   */
  method ReportSummary(city: string, ls: seq<Listing>) returns (r: Result<Summary, ReportError>)
    ensures r.Failure? <==> |ls| == 0
    ensures r.Success? ==>
      && r.value.city == city
      && r.value.totalAccommodations == |ls|
      && r.value.price == PriceSummary(Mean(Prices(ls)), Min(Prices(ls)), Max(Prices(ls)))
      && r.value.price.min <= r.value.price.average <= r.value.price.max
      && r.value.rating.average == AverageRating(ls)
      && r.value.rating.totalReviews == TotalReviews(ls)
      && r.value.availability.available == AvailableCount(ls)
      && r.value.availability.available + r.value.availability.occupied == |ls|
      && r.value.availability.rate == Percent(AvailableCount(ls), |ls|)
      && 0.0 <= r.value.availability.rate <= 100.0
    ensures r.Success? ==>
      && |r.value.byType| == |Kinds(ls)|
      && SumInt(AverageCounts(r.value.byType)) == |ls|
      && forall k :: 0 <= k < |r.value.byType| ==>
        && r.value.byType[k].kind == Kinds(ls)[k]
        && r.value.byType[k].count == |OfKind(ls, Kinds(ls)[k])| > 0
        && r.value.byType[k].avgPrice == Mean(Prices(OfKind(ls, Kinds(ls)[k])))
  {
    if |ls| == 0 {
      return Failure(NoAccommodationsFound);
    }
    MeanBounds(Prices(ls));
    var price := PriceSummary(Mean(Prices(ls)), Min(Prices(ls)), Max(Prices(ls)));
    RatingAverageIsMean(ls);
    var rating := RatingSummary(RatingAverage(ls), TotalReviews(ls));
    AvailableOccupiedPartition(ls);
    PercentBounds(AvailableCount(ls), |ls|);
    var availability := AvailabilitySummary(AvailableCount(ls), OccupiedCount(ls), Percent(AvailableCount(ls), |ls|));
    var byType := AveragePriceByType(ls);
    r := Success(Summary(city, |ls|, price, rating, availability, byType));
  }

  /** A row of the PDF table; the score is `'N/A'` unless it is truthy. */
  datatype PdfRow = PdfRow(name: string, kind: AccommodationType, price: real, score: Option<real>, available: bool)

  function PdfRowOf(l: Listing): (row: PdfRow)
    ensures row.score.Some? <==> HasScore(l)
    ensures row.score.Some? ==> row.score.value == ScoreOf(l)
  {
    PdfRow(l.name, l.kind, l.currentPrice, if HasScore(l) then Some(ScoreOf(l)) else None, IsAvailable(l))
  }

  /** The PDF figures: the header statistics and the table rows. */
  datatype PdfReport = PdfReport(total: nat, avgPrice: real, avgRating: real, rows: seq<PdfRow>)

  /** `accommodations.slice(0, 50).map(...)`: the first fifty listings, in input order. */
  function PdfRows(ls: seq<Listing>): (rows: seq<PdfRow>)
    ensures |rows| == if |ls| < 50 then |ls| else 50
    ensures forall i :: 0 <= i < |rows| ==> rows[i] == PdfRowOf(ls[i])
  {
    var shown := Take(ls, 50);
    seq(|shown|, i requires 0 <= i < |shown| => PdfRowOf(shown[i]))
  }

  /** `/pdf/:city`: 404 for none; otherwise the total, the mean price, the mean truthy score and the first fifty rows. */
  function PdfFigures(ls: seq<Listing>): (r: Result<PdfReport, ReportError>)
    ensures r.Failure? <==> |ls| == 0
    ensures r.Success? ==>
      && r.value.total == |ls|
      && r.value.avgPrice == Mean(Prices(ls))
      && r.value.avgRating == AverageRating(ls)
      && r.value.rows == PdfRows(ls)
      && |r.value.rows| == (if |ls| < 50 then |ls| else 50)
      && forall i :: 0 <= i < |r.value.rows| ==> r.value.rows[i] == PdfRowOf(ls[i])
  {
    if |ls| == 0 then Failure(NoAccommodationsFound)
    else
      RatingAverageIsMean(ls);
      Success(PdfReport(|ls|, Mean(Prices(ls)), RatingAverage(ls), PdfRows(ls)))
  }

  /**
   * A row of the 'Hospedagens' sheet; a falsy score is `'N/A'` and a missing
   * review count 0. 'Última Atualização' is the `lastScrapedAt` timestamp, whose
   * pt-BR date rendering is formatting only.
   */
  datatype ExcelRow = ExcelRow(
    name: string, kind: AccommodationType, city: string, price: real,
    score: Option<real>, totalReviews: nat, available: bool, platform: Platform, lastUpdated: int)

  function ExcelRowOf(l: Listing): (row: ExcelRow)
    ensures row.score.Some? <==> HasScore(l)
    ensures row.score.Some? ==> row.score.value == ScoreOf(l)
    ensures row.totalReviews == ReviewsOrZero(l)
    ensures row.lastUpdated == l.lastScrapedAt
  {
    ExcelRow(l.name, l.kind, l.city, l.currentPrice, if HasScore(l) then Some(ScoreOf(l)) else None,
             ReviewsOrZero(l), IsAvailable(l), l.platform, l.lastScrapedAt)
  }

  /** The workbook's first two sheets: one row per listing, and the four summary figures. */
  datatype Workbook = Workbook(rows: seq<ExcelRow>, total: nat, avgPrice: real, avgRating: real, availableCount: nat)

  /** `/excel/:city`: 404 for none; otherwise every listing in input order and the summary figures. */
  function ExcelFigures(ls: seq<Listing>): (r: Result<Workbook, ReportError>)
    ensures r.Failure? <==> |ls| == 0
    ensures r.Success? ==>
      && |r.value.rows| == |ls|
      && (forall i :: 0 <= i < |ls| ==> r.value.rows[i] == ExcelRowOf(ls[i]))
      && r.value.total == |ls|
      && r.value.avgPrice == Mean(Prices(ls))
      && r.value.avgRating == AverageRating(ls)
      && r.value.availableCount == AvailableCount(ls) <= |ls|
  {
    if |ls| == 0 then Failure(NoAccommodationsFound)
    else
      RatingAverageIsMean(ls);
      var rows := seq(|ls|, i requires 0 <= i < |ls| => ExcelRowOf(ls[i]));
      Success(Workbook(rows, |ls|, Mean(Prices(ls)), RatingAverage(ls), AvailableCount(ls)))
  }
}
