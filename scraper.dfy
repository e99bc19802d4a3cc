/**
 * The ingestion upsert of `server/scrapers/index.js`. Every scraped item is
 * looked up by its key (external id, platform). A found document is refreshed
 * in place, and a missing one is created. `Upsert` and `UpsertAll` describe the
 * table of documents as a value. `Store` is the collection the loop mutates,
 * and it is proved to follow that description.
 */
module Scraper {
  import opened Wrappers
  import opened Schema
  import opened Listings
  import opened PriceHistory
  import opened AccommodationModel

  /** The lookup key `{ 'source.externalId': ..., 'source.platform': ... }`. */
  datatype Key = Key(externalId: string, platform: Platform)

  function KeyOf(l: Listing): Key
  {
    Key(l.externalId, l.platform)
  }

  /** `findOne(key)`: the position of the first document carrying `k`, if any. */
  function Find(t: seq<Listing>, k: Key): (r: Option<nat>)
    ensures r.Some? ==> r.value < |t| && KeyOf(t[r.value]) == k
    ensures r.Some? ==> forall j :: 0 <= j < r.value ==> KeyOf(t[j]) != k
    ensures r.None? <==> forall j :: 0 <= j < |t| ==> KeyOf(t[j]) != k
  {
    FindFrom(t, k, 0)
  }

  function FindFrom(t: seq<Listing>, k: Key, start: nat): (r: Option<nat>)
    requires start <= |t|
    requires forall j :: 0 <= j < start ==> KeyOf(t[j]) != k
    ensures r.Some? ==> start <= r.value < |t| && KeyOf(t[r.value]) == k
    ensures r.Some? ==> forall j :: 0 <= j < r.value ==> KeyOf(t[j]) != k
    ensures r.None? <==> forall j :: 0 <= j < |t| ==> KeyOf(t[j]) != k
    decreases |t| - start
  {
    if start == |t| then None
    else if KeyOf(t[start]) == k then Some(start)
    else FindFrom(t, k, start + 1)
  }

  /** The key under which the scrape for `platform` looks an item up. */
  function ItemKey(item: ScrapedItem, platform: Platform): Key
  {
    Key(item.externalId, platform)
  }

  /** One iteration of the scrape loop on the table of documents. */
  function Upsert(t: seq<Listing>, item: ScrapedItem, platform: Platform, now: int): seq<Listing>
  {
    match Find(t, ItemKey(item, platform))
    case Some(i) => t[i := Refreshed(t[i], item, now)]
    case None => t + [Created(|t|, item)]
  }

  /** The whole `for (const accData of sampleAccommodations)` loop. */
  function UpsertAll(t: seq<Listing>, items: seq<ScrapedItem>, platform: Platform, now: int): seq<Listing>
  {
    if items == [] then t
    else Upsert(UpsertAll(t, items[..|items| - 1], platform, now), items[|items| - 1], platform, now)
  }

  ghost predicate KeysDistinct(t: seq<Listing>)
  {
    forall i, j :: 0 <= i < j < |t| ==> KeyOf(t[i]) != KeyOf(t[j])
  }

  function KeySet(t: seq<Listing>): set<Key>
  {
    set i | 0 <= i < |t| :: KeyOf(t[i])
  }

  function ItemKeys(items: seq<ScrapedItem>, platform: Platform): set<Key>
  {
    set i | 0 <= i < |items| :: ItemKey(items[i], platform)
  }

  /** Every item a scrape of `platform` produces is tagged with that platform. */
  ghost predicate TaggedWith(items: seq<ScrapedItem>, platform: Platform)
  {
    forall i :: 0 <= i < |items| ==> items[i].platform == platform
  }

  /**
   * One upsert: a found document is refreshed at its own position and nothing
   * else changes; otherwise exactly one document, the created one, is appended.
   */
  lemma {:induction false} UpsertEffect(t: seq<Listing>, item: ScrapedItem, platform: Platform, now: int)
    ensures var r, k := Upsert(t, item, platform, now), ItemKey(item, platform);
      && (k in KeySet(t) ==>
            && |r| == |t|
            && (forall j :: 0 <= j < |t| && KeyOf(t[j]) != k ==> r[j] == t[j])
            && (exists i :: 0 <= i < |t| && KeyOf(t[i]) == k && r[i] == Refreshed(t[i], item, now)))
      && (k !in KeySet(t) ==> r == t + [Created(|t|, item)])
  {
    var k := ItemKey(item, platform);
    match Find(t, k)
    case Some(i) =>
      assert k in KeySet(t);
    case None =>
      assert k !in KeySet(t);
  }

  /** An upsert keeps the keys distinct, and afterwards the item's key is present. */
  lemma {:induction false} UpsertKeys(t: seq<Listing>, item: ScrapedItem, platform: Platform, now: int)
    requires item.platform == platform
    requires KeysDistinct(t)
    ensures KeysDistinct(Upsert(t, item, platform, now))
    ensures KeySet(Upsert(t, item, platform, now)) == KeySet(t) + {ItemKey(item, platform)}
  {
    var r := Upsert(t, item, platform, now);
    match Find(t, ItemKey(item, platform))
    case Some(i) =>
      assert forall j :: 0 <= j < |t| ==> KeyOf(r[j]) == KeyOf(t[j]);
      assert KeySet(r) == KeySet(t);
    case None =>
      assert forall j :: 0 <= j < |t| ==> r[j] == t[j];
      assert KeyOf(r[|t|]) == ItemKey(item, platform);
      assert KeySet(r) == KeySet(t) + {ItemKey(item, platform)} by {
        forall x | x in KeySet(r) ensures x in KeySet(t) + {ItemKey(item, platform)} {
          var j :| 0 <= j < |r| && KeyOf(r[j]) == x;
        }
      }
  }

  /** After a run the table holds the old keys and the scraped ones, each once. */
  lemma {:induction false} UpsertAllKeys(t: seq<Listing>, items: seq<ScrapedItem>, platform: Platform, now: int)
    requires TaggedWith(items, platform)
    requires KeysDistinct(t)
    ensures KeysDistinct(UpsertAll(t, items, platform, now))
    ensures KeySet(UpsertAll(t, items, platform, now)) == KeySet(t) + ItemKeys(items, platform)
  {
    if items != [] {
      var n := |items| - 1;
      var prefix := items[..n];
      assert TaggedWith(prefix, platform);
      UpsertAllKeys(t, prefix, platform, now);
      UpsertKeys(UpsertAll(t, prefix, platform, now), items[n], platform, now);
      ItemKeysSnoc(items, platform);
    }
  }

  lemma {:induction false} ItemKeysSnoc(items: seq<ScrapedItem>, platform: Platform)
    requires |items| > 0
    ensures ItemKeys(items, platform) == ItemKeys(items[..|items| - 1], platform) + {ItemKey(items[|items| - 1], platform)}
  {
    var n := |items| - 1;
    var prefix := items[..n];
    forall x | x in ItemKeys(items, platform)
      ensures x in ItemKeys(prefix, platform) + {ItemKey(items[n], platform)}
    {
      var j :| 0 <= j < |items| && ItemKey(items[j], platform) == x;
      if j < n {
        assert prefix[j] == items[j];
      }
    }
    forall x | x in ItemKeys(prefix, platform) ensures x in ItemKeys(items, platform) {
      var j :| 0 <= j < |prefix| && ItemKey(prefix[j], platform) == x;
      assert items[j] == prefix[j];
    }
  }

  /** The keys of a table with one more document are the old keys plus that document's key. */
  lemma KeySetSnoc(p: seq<Listing>, x: Listing)
    ensures KeySet(p + [x]) == KeySet(p) + {KeyOf(x)}
  {
    var t := p + [x];
    assert t[|p|] == x;
    forall y | y in KeySet(t) ensures y in KeySet(p) + {KeyOf(x)} {
      var j :| 0 <= j < |t| && KeyOf(t[j]) == y;
      if j < |p| {
        assert p[j] == t[j];
      }
    }
    forall y | y in KeySet(p) ensures y in KeySet(t) {
      var j :| 0 <= j < |p| && KeyOf(p[j]) == y;
      assert t[j] == p[j];
    }
  }

  /** A table with distinct keys has as many documents as keys. */
  lemma {:induction false} DistinctKeysCount(t: seq<Listing>)
    requires KeysDistinct(t)
    ensures |KeySet(t)| == |t|
  {
    if t != [] {
      var p := t[..|t| - 1];
      var x := t[|t| - 1];
      assert t == p + [x];
      assert KeysDistinct(p);
      DistinctKeysCount(p);
      KeySetSnoc(p, x);
      assert KeyOf(x) !in KeySet(p) by {
        forall j | 0 <= j < |p| ensures KeyOf(p[j]) != KeyOf(x) {
          assert p[j] == t[j];
        }
      }
    }
  }

  /** A run grows the collection by exactly the number of scraped keys it did not hold before. */
  lemma {:induction false} UpsertAllCount(t: seq<Listing>, items: seq<ScrapedItem>, platform: Platform, now: int)
    requires TaggedWith(items, platform)
    requires KeysDistinct(t)
    ensures |UpsertAll(t, items, platform, now)| == |t| + |ItemKeys(items, platform) - KeySet(t)|
  {
    var r := UpsertAll(t, items, platform, now);
    UpsertAllKeys(t, items, platform, now);
    DistinctKeysCount(t);
    DistinctKeysCount(r);
    var a, b := KeySet(t), ItemKeys(items, platform) - KeySet(t);
    assert KeySet(r) == a + b;
    assert a * b == {};
  }

  /**
   * Documents of another platform are never touched by a platform's run, and no
   * document changes position.
   */
  lemma {:induction false} UpsertAllOtherPlatform(t: seq<Listing>, items: seq<ScrapedItem>, platform: Platform, now: int)
    ensures |t| <= |UpsertAll(t, items, platform, now)|
    ensures forall j :: 0 <= j < |t| && t[j].platform != platform ==> UpsertAll(t, items, platform, now)[j] == t[j]
  {
    if items != [] {
      var n := |items| - 1;
      var mid := UpsertAll(t, items[..n], platform, now);
      UpsertAllOtherPlatform(t, items[..n], platform, now);
      UpsertEffect(mid, items[n], platform, now);
    }
  }

  /** A found document carries the scraped price, availability and rating afterwards. */
  lemma {:induction false} UpsertRecordsItem(t: seq<Listing>, item: ScrapedItem, platform: Platform, now: int)
    requires item.platform == platform
    ensures var r := Upsert(t, item, platform, now);
      && Find(r, ItemKey(item, platform)).Some?
      && var l := r[Find(r, ItemKey(item, platform)).value];
      && l.currentPrice == item.currentPrice
      && l.availability == item.availability
      && l.rating == item.rating
  {
    var r := Upsert(t, item, platform, now);
    var k := ItemKey(item, platform);
    match Find(t, k)
    case Some(i) =>
      assert forall j :: 0 <= j < i ==> KeyOf(r[j]) != k;
      assert KeyOf(r[i]) == k;
    case None =>
      assert forall j :: 0 <= j < |t| ==> KeyOf(r[j]) != k;
      assert KeyOf(r[|t|]) == k;
  }

  lemma {:induction false} UpsertAllStep(t: seq<Listing>, items: seq<ScrapedItem>, i: nat, platform: Platform, now: int)
    requires i < |items|
    ensures UpsertAll(t, items[..i + 1], platform, now) == Upsert(UpsertAll(t, items[..i], platform, now), items[i], platform, now)
  {
    assert items[..i + 1][..i] == items[..i];
  }

  /** The collection of accommodation documents, as the scraper updates it. */
  class Store {
    var docs: seq<Accommodation>

    /** Each document is stored once. */
    ghost predicate Valid()
      reads this
    {
      forall i, j :: 0 <= i < j < |docs| ==> docs[i] != docs[j]
    }

    /** The documents as values. */
    function Table(): (t: seq<Listing>)
      reads this, docs
      ensures |t| == |docs|
    {
      seq(|docs|, i requires 0 <= i < |docs| reads this, docs => docs[i].View())
    }

    constructor ()
      ensures docs == [] && Valid()
    {
      docs := [];
    }

    /** One iteration of the loop of `scrapeBooking`/`scrapeExpedia`. */
    method Ingest(item: ScrapedItem, platform: Platform, now: int)
      requires Valid()
      modifies this, set d | d in docs
      ensures Valid()
      ensures Table() == Upsert(old(Table()), item, platform, now)
      ensures forall d :: d in docs ==> d in old(docs) || fresh(d)
    {
      var found := Find(Table(), ItemKey(item, platform));
      if found.Some? {
        var i := found.value;
        var acc := docs[i];
        ghost var before := Table();
        acc.Refresh(item, now);
        assert forall j :: 0 <= j < |docs| && j != i ==> docs[j] != acc;
        assert Table() == before[i := Refreshed(before[i], item, now)];
      } else {
        var acc := new Accommodation(|docs|, item);
        ghost var before := Table();
        docs := docs + [acc];
        assert Table() == before + [Created(|before|, item)];
      }
    }

    /** The scrape loop over the items of one platform. */
    method Scrape(items: seq<ScrapedItem>, platform: Platform, now: int)
      requires Valid()
      modifies this, set d | d in docs
      ensures Valid()
      ensures Table() == UpsertAll(old(Table()), items, platform, now)
    {
      ghost var start := Table();
      ghost var expected := start;
      var i := 0;
      while i < |items|
        invariant 0 <= i <= |items|
        invariant Valid()
        invariant forall d :: d in docs ==> d in old(docs) || fresh(d)
        invariant expected == UpsertAll(start, items[..i], platform, now)
        invariant Table() == expected
      {
        Ingest(items[i], platform, now);
        UpsertAllStep(start, items, i, platform, now);
        expected := Upsert(expected, items[i], platform, now);
        i := i + 1;
      }
      assert items[..i] == items;
    }

    /** `scrapeBooking(city)` on the items the generator produced for the city. */
    method ScrapeBooking(items: seq<ScrapedItem>, now: int)
      requires Valid()
      modifies this, set d | d in docs
      ensures Valid()
      ensures Table() == UpsertAll(old(Table()), items, Booking, now)
    {
      Scrape(items, Booking, now);
    }

    /** `scrapeExpedia(city)`: the same loop, keyed on the Expedia platform. */
    method ScrapeExpedia(items: seq<ScrapedItem>, now: int)
      requires Valid()
      modifies this, set d | d in docs
      ensures Valid()
      ensures Table() == UpsertAll(old(Table()), items, Expedia, now)
    {
      Scrape(items, Expedia, now);
    }
  }
}
