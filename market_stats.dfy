/**
 * The statistics `generateMarketAnalysis` computes with filter, sort, slice and
 * reduce expressions: price statistics with the upper-middle median, the
 * four-band rating distribution, and the two top-5 rankings.
 */
module MarketStats {
  import opened Wrappers
  import opened Schema
  import opened Numeric
  import opened Sorting
  import opened Listings

  function Identity(x: real): real
  {
    x
  }

  /** `[...prices].sort((a, b) => a - b)`. */
  function SortedPrices(ls: seq<Listing>): (s: seq<real>)
    ensures |s| == |ls|
  {
    SortBy(Prices(ls), Identity)
  }

  /** `sortedPrices[Math.floor(sortedPrices.length / 2)]`: the upper middle for an even count. */
  function MedianPrice(ls: seq<Listing>): real
    requires |ls| > 0
  {
    SortedPrices(ls)[|ls| / 2]
  }

  /**
   * The median is one of the prices, between the least and the greatest, with
   * the `n / 2` positions before it in the sorted order holding no larger price
   * and the positions from it on holding no smaller one.
   */
  lemma {:induction false} MedianPriceBounds(ls: seq<Listing>)
    requires |ls| > 0
    ensures MedianPrice(ls) in Prices(ls)
    ensures Min(Prices(ls)) <= MedianPrice(ls) <= Max(Prices(ls))
    ensures forall i :: 0 <= i < |ls| / 2 ==> SortedPrices(ls)[i] <= MedianPrice(ls)
    ensures forall i :: |ls| / 2 <= i < |ls| ==> MedianPrice(ls) <= SortedPrices(ls)[i]
  {
    var s := SortedPrices(ls);
    assert s[|ls| / 2] in multiset(s);
    assert MedianPrice(ls) in multiset(Prices(ls));
  }

  /** `averagePrice`: the mean current price. */
  function AveragePriceOf(ls: seq<Listing>): real
    requires |ls| > 0
  {
    Mean(Prices(ls))
  }

  lemma {:induction false} AveragePriceOfBounds(ls: seq<Listing>)
    requires |ls| > 0
    ensures Min(Prices(ls)) <= AveragePriceOf(ls) <= Max(Prices(ls))
  {
    MeanBounds(Prices(ls));
  }

  /** `(max - min) / min * 100`; the code divides by the least price without a guard. */
  function PriceVariation(ls: seq<Listing>): real
    requires |ls| > 0 && Min(Prices(ls)) != 0.0
  {
    (Max(Prices(ls)) - Min(Prices(ls))) / Min(Prices(ls)) * 100.0
  }

  /** With positive prices the variation is non-negative, and exceeds 100% iff the dearest costs over twice the cheapest. */
  lemma {:induction false} PriceVariationMeaning(ls: seq<Listing>)
    requires |ls| > 0 && Min(Prices(ls)) > 0.0
    ensures PriceVariation(ls) >= 0.0
    ensures PriceVariation(ls) > 100.0 <==> Max(Prices(ls)) > 2.0 * Min(Prices(ls))
  {
    assert Prices(ls)[0] in Prices(ls);
    RelativeSpread(Min(Prices(ls)), Max(Prices(ls)));
  }

  /** The relative spread `(hi - lo) / lo * 100` of two positive bounds. */
  lemma {:induction false} RelativeSpread(lo: real, hi: real)
    requires 0.0 < lo <= hi
    ensures (hi - lo) / lo * 100.0 >= 0.0
    ensures (hi - lo) / lo * 100.0 > 100.0 <==> hi > 2.0 * lo
  {
    var q := (hi - lo) / lo;
    assert q * lo == hi - lo;
    assert (q - 1.0) * lo == hi - 2.0 * lo;
    if q > 1.0 {
      assert (q - 1.0) * lo > 0.0;
    } else {
      assert (q - 1.0) * lo <= 0.0;
    }
  }

  /** The four `scoreRange` entries of `distributionByScore`. */
  datatype ScoreRange = Below5 | From5To7 | From7To8_5 | From8_5To10

  function RangeLabel(r: ScoreRange): string
  {
    match r
    case Below5 => "0-5"
    case From5To7 => "5-7"
    case From7To8_5 => "7-8.5"
    case From8_5To10 => "8.5-10"
  }

  const Ranges: seq<ScoreRange> := [Below5, From5To7, From7To8_5, From8_5To10]

  /** The filter condition of each band, on the score of a rated listing. */
  function InRange(r: ScoreRange): Listing -> bool
  {
    match r
    case Below5 => (l: Listing) => ScoreOf(l) < 5.0
    case From5To7 => (l: Listing) => 5.0 <= ScoreOf(l) < 7.0
    case From7To8_5 => (l: Listing) => 7.0 <= ScoreOf(l) < 8.5
    case From8_5To10 => (l: Listing) => ScoreOf(l) >= 8.5
  }

  /** `accommodations.filter((acc) => acc.rating?.score)`: a score of 0 counts as unrated. */
  function Rated(ls: seq<Listing>): (r: seq<Listing>)
    ensures forall i :: 0 <= i < |r| ==> HasScore(r[i])
    ensures forall l :: l in r <==> l in ls && HasScore(l)
  {
    Filter(ls, HasScore)
  }

  function BandCount(ls: seq<Listing>, r: ScoreRange): nat
  {
    |Filter(Rated(ls), InRange(r))|
  }

  /** Every rated listing falls in exactly one band, so the band counts add up to the rated count. */
  lemma {:induction false} BandsPartition(ls: seq<Listing>)
    ensures BandCount(ls, Below5) + BandCount(ls, From5To7) + BandCount(ls, From7To8_5) + BandCount(ls, From8_5To10)
         == |Rated(ls)|
  {
    FilterPartition4(Rated(ls), InRange(Below5), InRange(From5To7), InRange(From7To8_5), InRange(From8_5To10));
  }

  /** With at least one rated listing the four band percentages add up to 100. */
  lemma {:induction false} BandPercentagesSum(ls: seq<Listing>)
    requires |Rated(ls)| > 0
    ensures var n := |Rated(ls)|;
      Percent(BandCount(ls, Below5), n) + Percent(BandCount(ls, From5To7), n)
        + Percent(BandCount(ls, From7To8_5), n) + Percent(BandCount(ls, From8_5To10), n) == 100.0
  {
    BandsPartition(ls);
    PercentSum4(BandCount(ls, Below5), BandCount(ls, From5To7), BandCount(ls, From7To8_5), BandCount(ls, From8_5To10),
                |Rated(ls)|);
  }

  /** `ratingAnalysis.averageRating`: the mean score of the rated listings, 0 when there are none. */
  function AverageRating(ls: seq<Listing>): real
  {
    if |RatedScores(ls)| > 0 then Mean(RatedScores(ls)) else 0.0
  }

  lemma {:induction false} AverageRatingBounds(ls: seq<Listing>)
    ensures |Rated(ls)| == 0 ==> AverageRating(ls) == 0.0
    ensures |Rated(ls)| > 0 ==> Min(RatedScores(ls)) <= AverageRating(ls) <= Max(RatedScores(ls))
  {
    if |Rated(ls)| > 0 {
      MeanBounds(RatedScores(ls));
    }
  }

  /** `reduce((sum, acc) => sum + (acc.rating?.totalReviews || 0), 0)`. */
  function TotalReviews(ls: seq<Listing>): (n: nat)
    ensures forall i :: 0 <= i < |ls| ==> ReviewsOrZero(ls[i]) <= n
  {
    if ls == [] then 0
    else
      var p := ls[..|ls| - 1];
      assert forall i :: 0 <= i < |p| ==> p[i] == ls[i];
      TotalReviews(p) + ReviewsOrZero(ls[|ls| - 1])
  }

  /** The `topPerformers` filter: a truthy score and at least 20 reviews. */
  predicate Qualifies(l: Listing)
  {
    HasScore(l) && ReviewsAtLeast(l, 20)
  }

  /** `(a, b) => b.rating.score - a.rating.score`, as an ascending key. */
  function NegScore(l: Listing): real
  {
    -ScoreOf(l)
  }

  /** `(a, b) => b.currentPrice - a.currentPrice`, as an ascending key. */
  function NegPrice(l: Listing): real
  {
    -l.currentPrice
  }

  /** The listings behind `topPerformers`: the five best qualifying scores. */
  function TopRated(ls: seq<Listing>): seq<Listing>
  {
    Take(SortBy(Filter(ls, Qualifies), NegScore), 5)
  }

  /** The listings behind `priceLeaders`: the five highest prices. */
  function PriceLeaders(ls: seq<Listing>): seq<Listing>
  {
    Take(SortBy(ls, NegPrice), 5)
  }

  /**
   * The five best qualifying listings, or all of them when fewer qualify: each a
   * qualifying listing of the city, in non-increasing score, and no qualifying
   * listing left out scores higher than one listed.
   */
  lemma {:induction false} TopRatedSpec(ls: seq<Listing>)
    ensures |TopRated(ls)| == if |Filter(ls, Qualifies)| < 5 then |Filter(ls, Qualifies)| else 5
    ensures forall i :: 0 <= i < |TopRated(ls)| ==> TopRated(ls)[i] in ls && Qualifies(TopRated(ls)[i])
    ensures forall i, j :: 0 <= i < j < |TopRated(ls)| ==> ScoreOf(TopRated(ls)[j]) <= ScoreOf(TopRated(ls)[i])
    ensures forall x, y :: x in ls && Qualifies(x) && x !in TopRated(ls) && y in TopRated(ls) ==> ScoreOf(x) <= ScoreOf(y)
  {
    var q := Filter(ls, Qualifies);
    var t := TopRated(ls);
    SortedPrefixDominates(q, NegScore, 5);
    assert SortedBy(t, NegScore);
    forall i | 0 <= i < |t| ensures t[i] in ls && Qualifies(t[i]) {
      assert t[i] in multiset(q);
    }
    forall i, j | 0 <= i < j < |t| ensures ScoreOf(t[j]) <= ScoreOf(t[i]) {
      assert NegScore(t[i]) <= NegScore(t[j]);
    }
    forall x, y | x in ls && Qualifies(x) && x !in t && y in t ensures ScoreOf(x) <= ScoreOf(y) {
      assert x in q;
      assert NegScore(y) <= NegScore(x);
    }
  }

  /**
   * Ties keep query order: of the qualifying listings scored like `x`, the ones in
   * `topPerformers` are the first in the order the query returned them, in that
   * order (the sort is stable, and no tie-breaker such as the id is applied).
   */
  lemma {:induction false} TopRatedTies(ls: seq<Listing>, x: Listing)
    ensures Filter(TopRated(ls), KeyIs(NegScore, NegScore(x))) <= Filter(Filter(ls, Qualifies), KeyIs(NegScore, NegScore(x)))
  {
    SortedPrefixKeepsTieOrder(Filter(ls, Qualifies), NegScore, 5, NegScore(x));
  }

  /** Ties keep query order: of the listings priced like `x`, the price leaders are the first returned, in order. */
  lemma {:induction false} PriceLeadersTies(ls: seq<Listing>, x: Listing)
    ensures Filter(PriceLeaders(ls), KeyIs(NegPrice, NegPrice(x))) <= Filter(ls, KeyIs(NegPrice, NegPrice(x)))
  {
    SortedPrefixKeepsTieOrder(ls, NegPrice, 5, NegPrice(x));
  }

  /** At most five entries, each a listing of the city, in non-increasing price, and none left out costs more. */
  lemma {:induction false} PriceLeadersSpec(ls: seq<Listing>)
    ensures |PriceLeaders(ls)| == if |ls| < 5 then |ls| else 5
    ensures forall i :: 0 <= i < |PriceLeaders(ls)| ==> PriceLeaders(ls)[i] in ls
    ensures forall i, j :: 0 <= i < j < |PriceLeaders(ls)| ==> PriceLeaders(ls)[j].currentPrice <= PriceLeaders(ls)[i].currentPrice
    ensures forall x, y :: x in ls && x !in PriceLeaders(ls) && y in PriceLeaders(ls) ==> x.currentPrice <= y.currentPrice
  {
    var t := PriceLeaders(ls);
    SortedPrefixDominates(ls, NegPrice, 5);
    assert SortedBy(t, NegPrice);
    forall i | 0 <= i < |t| ensures t[i] in ls {
      assert t[i] in multiset(ls);
    }
    forall i, j | 0 <= i < j < |t| ensures t[j].currentPrice <= t[i].currentPrice {
      assert NegPrice(t[i]) <= NegPrice(t[j]);
    }
    forall x, y | x in ls && x !in t && y in t ensures x.currentPrice <= y.currentPrice {
      assert NegPrice(y) <= NegPrice(x);
    }
  }

  /** An entry of `topPerformers` (`score`) or of `priceLeaders` (`price`). */
  datatype RankEntry = RankEntry(accommodationId: nat, name: string, value: real)

  function ScoreEntries(t: seq<Listing>): (r: seq<RankEntry>)
    ensures |r| == |t|
    ensures forall i :: 0 <= i < |t| ==> r[i] == RankEntry(t[i].id, t[i].name, ScoreOf(t[i]))
  {
    seq(|t|, i requires 0 <= i < |t| => RankEntry(t[i].id, t[i].name, ScoreOf(t[i])))
  }

  function PriceEntries(t: seq<Listing>): (r: seq<RankEntry>)
    ensures |r| == |t|
    ensures forall i :: 0 <= i < |t| ==> r[i] == RankEntry(t[i].id, t[i].name, t[i].currentPrice)
  {
    seq(|t|, i requires 0 <= i < |t| => RankEntry(t[i].id, t[i].name, t[i].currentPrice))
  }
}
