/**
 * The accommodation document as a value: what the analysis code reads after
 * loading the listings of a city. Timestamps are integer milliseconds; prices,
 * scores and rates are exact reals. Optional fields are `Option`s, so that
 * JavaScript's optional chaining (`acc.rating?.score`) has a direct counterpart.
 */
module Listings {
  import opened Wrappers
  import opened Schema
  import opened Numeric

  /** `setDate(getDate() - 1)` and `setFullYear(getFullYear() - 1)`, as fixed durations. */
  const DAY: int := 86_400_000
  const YEAR: int := 365 * DAY

  /** One entry of `priceHistory`. */
  datatype PriceSample = PriceSample(date: int, price: real, available: bool, occupancyRate: Option<real>)

  /** The `rating` subdocument; both of its fields may be missing. */
  datatype Rating = Rating(score: Option<real>, totalReviews: Option<nat>)

  /** The `availability` subdocument (`lastChecked` is not read by any modelled code). */
  datatype Availability = Availability(isAvailable: bool, occupancyRate: Option<real>)

  /** An accommodation document; `kind` is the schema's `type` field. */
  datatype Listing = Listing(
    id: nat,
    name: string,
    kind: AccommodationType,
    city: string,
    state: string,
    currentPrice: real,
    rating: Option<Rating>,
    availability: Availability,
    priceHistory: seq<PriceSample>,
    platform: Platform,
    externalId: string,
    lastScrapedAt: int,
    isActive: bool)

  /** `acc.availability.isAvailable`. */
  predicate IsAvailable(l: Listing)
  {
    l.availability.isAvailable
  }

  /** `acc.rating?.score` is truthy: present and non-zero, so a score of 0 counts as unrated. */
  predicate HasScore(l: Listing)
  {
    l.rating.Some? && l.rating.value.score.Some? && l.rating.value.score.value != 0.0
  }

  /** The rating score, read where the code has already established that it is present. */
  function ScoreOf(l: Listing): real
  {
    if l.rating.Some? && l.rating.value.score.Some? then l.rating.value.score.value else 0.0
  }

  /** `acc.rating?.totalReviews >= k`: false when the rating or its review count is missing. */
  predicate ReviewsAtLeast(l: Listing, k: nat)
  {
    l.rating.Some? && l.rating.value.totalReviews.Some? && l.rating.value.totalReviews.value >= k
  }

  /** `acc.rating?.totalReviews || 0`. */
  function ReviewsOrZero(l: Listing): nat
  {
    if l.rating.Some? && l.rating.value.totalReviews.Some? then l.rating.value.totalReviews.value else 0
  }

  /** `accommodations.map((acc) => acc.currentPrice)`. */
  function Prices(ls: seq<Listing>): (ps: seq<real>)
    ensures |ps| == |ls|
    ensures forall i :: 0 <= i < |ls| ==> ps[i] == ls[i].currentPrice
  {
    seq(|ls|, i requires 0 <= i < |ls| => ls[i].currentPrice)
  }

  lemma {:induction false} PricesSnoc(ls: seq<Listing>, x: Listing)
    ensures Prices(ls + [x]) == Prices(ls) + [x.currentPrice]
  {
  }

  /** The scores of the listings with a truthy score, in input order. */
  function RatedScores(ls: seq<Listing>): (r: seq<real>)
    ensures |r| == |Filter(ls, HasScore)|
  {
    var rated := Filter(ls, HasScore);
    seq(|rated|, i requires 0 <= i < |rated| => ScoreOf(rated[i]))
  }

  lemma {:induction false} RatedScoresSnoc(ls: seq<Listing>, x: Listing)
    ensures RatedScores(ls + [x]) == if HasScore(x) then RatedScores(ls) + [ScoreOf(x)] else RatedScores(ls)
  {
    FilterSnoc(ls, x, HasScore);
  }

  /** The number of listings whose `availability.isAvailable` is set. */
  function AvailableCount(ls: seq<Listing>): (n: nat)
    ensures n <= |ls|
  {
    |Filter(ls, IsAvailable)|
  }

  lemma {:induction false} AvailableCountSnoc(ls: seq<Listing>, x: Listing)
    ensures AvailableCount(ls + [x]) == AvailableCount(ls) + if IsAvailable(x) then 1 else 0
  {
    FilterSnoc(ls, x, IsAvailable);
  }
}
