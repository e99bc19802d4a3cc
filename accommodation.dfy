/**
 * The mutable accommodation document of `server/models/Accommodation.js`: the
 * fields a scrape or `addPriceToHistory` rewrites are `var`s, the identifying
 * and descriptive fields the core never rewrites are `const`s. `View` is the
 * document as a value, which is what the analysis modules read.
 */
module AccommodationModel {
  import opened Wrappers
  import opened Schema
  import opened Listings
  import opened PriceHistory

  /** One item of a scrape (the `accData` object), with the fields the core reads. */
  datatype ScrapedItem = ScrapedItem(
    name: string,
    kind: AccommodationType,
    city: string,
    state: string,
    currentPrice: real,
    rating: Option<Rating>,
    availability: Availability,
    platform: Platform,
    externalId: string,
    lastScrapedAt: int,
    isActive: bool)

  /** The document `new Accommodation(accData)` creates: everything copied, no history yet. */
  function Created(id: nat, item: ScrapedItem): (l: Listing)
    ensures l.priceHistory == []
    ensures l.externalId == item.externalId && l.platform == item.platform
    ensures l.currentPrice == item.currentPrice && l.rating == item.rating && l.availability == item.availability
  {
    Listing(id, item.name, item.kind, item.city, item.state, item.currentPrice, item.rating,
            item.availability, [], item.platform, item.externalId, item.lastScrapedAt, item.isActive)
  }

  /** The price sample `addPriceToHistory(price, available, occupancyRate)` pushes at `now`. */
  function Sample(price: real, now: int, available: bool, occupancyRate: Option<real>): PriceSample
  {
    PriceSample(now, price, available, occupancyRate)
  }

  /**
   * A found document after the scraper's update: price, availability and rating
   * replaced, `lastScrapedAt` set to now, and one sample recorded iff the price changed.
   */
  function Refreshed(l: Listing, item: ScrapedItem, now: int): (r: Listing)
    ensures r.currentPrice == item.currentPrice && r.availability == item.availability
    ensures r.rating == item.rating && r.lastScrapedAt == now
    ensures r.id == l.id && r.externalId == l.externalId && r.platform == l.platform
    ensures r.name == l.name && r.kind == l.kind && r.city == l.city && r.state == l.state && r.isActive == l.isActive
    ensures l.currentPrice == item.currentPrice ==> r.priceHistory == l.priceHistory
  {
    var history :=
      if l.currentPrice != item.currentPrice then
        AppendAndPrune(l.priceHistory,
                       Sample(item.currentPrice, now, item.availability.isAvailable, item.availability.occupancyRate), now)
      else l.priceHistory;
    l.(currentPrice := item.currentPrice, availability := item.availability, rating := item.rating,
       lastScrapedAt := now, priceHistory := history)
  }

  /** A price-changing refresh leaves a history whose last sample carries the new current price. */
  lemma {:induction false} RefreshedRecordsNewPrice(l: Listing, item: ScrapedItem, now: int)
    requires l.currentPrice != item.currentPrice
    ensures var r := Refreshed(l, item, now);
      && |r.priceHistory| > 0
      && r.priceHistory[|r.priceHistory| - 1].price == r.currentPrice
      && r.priceHistory[|r.priceHistory| - 1].date == now
      && r.priceHistory == Window(l.priceHistory, now - YEAR) + [r.priceHistory[|r.priceHistory| - 1]]
  {
    var s := Sample(item.currentPrice, now, item.availability.isAvailable, item.availability.occupancyRate);
    AppendAndPruneSpec(l.priceHistory, s, now);
  }

  class Accommodation {
    const id: nat
    const name: string
    const kind: AccommodationType
    const city: string
    const state: string
    const platform: Platform
    const externalId: string
    const isActive: bool
    var currentPrice: real
    var rating: Option<Rating>
    var availability: Availability
    var priceHistory: seq<PriceSample>
    var lastScrapedAt: int

    /** The document as a value. */
    function View(): Listing
      reads this
    {
      Listing(id, name, kind, city, state, currentPrice, rating, availability, priceHistory,
              platform, externalId, lastScrapedAt, isActive)
    }

    /** `new Accommodation(accData)`. */
    constructor (id: nat, item: ScrapedItem)
      ensures View() == Created(id, item)
    {
      this.id := id;
      name := item.name;
      kind := item.kind;
      city := item.city;
      state := item.state;
      platform := item.platform;
      externalId := item.externalId;
      isActive := item.isActive;
      currentPrice := item.currentPrice;
      rating := item.rating;
      availability := item.availability;
      priceHistory := [];
      lastScrapedAt := item.lastScrapedAt;
    }

    /**
     * `addPriceToHistory(price, available = true, occupancyRate = null)`: push a
     * sample dated now, then keep only the samples of the last year. Survivors keep
     * their order, the new sample is last and nothing within the year is dropped.
     */
    method AddPriceToHistory(price: real, now: int, available: bool := true, occupancyRate: Option<real> := None)
      modifies this`priceHistory
      ensures priceHistory == AppendAndPrune(old(priceHistory), Sample(price, now, available, occupancyRate), now)
      ensures priceHistory == Window(old(priceHistory), now - YEAR) + [Sample(price, now, available, occupancyRate)]
      ensures forall i :: 0 <= i < |priceHistory| ==> priceHistory[i].date >= now - YEAR
      ensures forall s :: s in old(priceHistory) && s.date >= now - YEAR ==> s in priceHistory
    {
      var sample := Sample(price, now, available, occupancyRate);
      AppendAndPruneSpec(priceHistory, sample, now);
      priceHistory := priceHistory + [sample];
      var oneYearAgo := now - YEAR;
      priceHistory := Window(priceHistory, oneYearAgo);
    }

    /** The update branch of the scrape loop, applied to the document `findOne` returned. */
    method Refresh(item: ScrapedItem, now: int)
      modifies this
      ensures View() == Refreshed(old(View()), item, now)
    {
      var oldPrice := currentPrice;
      currentPrice := item.currentPrice;
      availability := item.availability;
      rating := item.rating;
      lastScrapedAt := now;
      if oldPrice != item.currentPrice {
        AddPriceToHistory(item.currentPrice, now, item.availability.isAvailable, item.availability.occupancyRate);
      }
    }
  }
}
