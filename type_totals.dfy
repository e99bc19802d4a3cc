/**
 * The per-type price summary that `/city/:city` of `server/routes/accommodations.js`
 * and `/summary/:city` of `server/routes/reports.js` both build: a `forEach` that
 * creates `{ count: 0, avgPrice: 0, totalPrice: 0 }` for a new type and then adds
 * one to `count` and the price to `totalPrice`, followed by a `forEach` over the
 * keys that sets `avgPrice = totalPrice / count` and deletes `totalPrice`.
 */
module TypeTotals {
  import opened Wrappers
  import opened Schema
  import opened Numeric
  import opened Listings
  import opened Grouping

  /** A counter of the first `forEach`. */
  datatype TypeTotal = TypeTotal(kind: AccommodationType, count: nat, totalPrice: real)

  /** A `byType` entry once `totalPrice` has been replaced by `avgPrice`. */
  datatype TypeAverage = TypeAverage(kind: AccommodationType, count: nat, avgPrice: real)

  /** The final counters of type `t` over `p`. */
  function TotalOf(p: seq<Listing>, t: AccommodationType): TypeTotal
  {
    TypeTotal(t, |OfKind(p, t)|, Sum(Prices(OfKind(p, t))))
  }

  /** `ts` holds, for each key of `ks`, the number and the summed price of the listings of `p` of that type. */
  ghost predicate Totalled(p: seq<Listing>, ks: seq<AccommodationType>, ts: seq<TypeTotal>)
  {
    && ks == Kinds(p)
    && |ts| == |ks|
    && forall k :: 0 <= k < |ks| ==> ts[k] == TotalOf(p, ks[k])
  }

  /** `count++; totalPrice += acc.currentPrice`. */
  function Add(c: TypeTotal, x: Listing): TypeTotal
  {
    TypeTotal(c.kind, c.count + 1, c.totalPrice + x.currentPrice)
  }

  /** Appending a listing adds it to the counter of its own type and leaves the others as they were. */
  lemma {:induction false} TotalOfSnoc(p: seq<Listing>, x: Listing, t: AccommodationType)
    ensures TotalOf(p + [x], t) == if x.kind == t then Add(TotalOf(p, t), x) else TotalOf(p, t)
  {
    OfKindSnoc(p, x, t);
    if x.kind == t {
      PricesSnoc(OfKind(p, t), x);
      SumSnoc(Prices(OfKind(p, t)), x.currentPrice);
    }
  }

  /** After a listing of a type already seen, its counter has the listing added and every other counter is still right. */
  lemma {:induction false} TotalJoinAt(p: seq<Listing>, x: Listing, ks: seq<AccommodationType>, ts: seq<TypeTotal>, q: nat, k: nat)
    requires Totalled(p, ks, ts)
    requires q < |ks| && ks[q] == x.kind && k < |ks|
    ensures ts[q := Add(ts[q], x)][k] == TotalOf(p + [x], ks[k])
  {
    TotalOfSnoc(p, x, ks[k]);
    assert ks[k] == x.kind <==> k == q;
  }

  lemma {:induction false} TotalJoin(p: seq<Listing>, x: Listing, ks: seq<AccommodationType>, ts: seq<TypeTotal>, q: nat)
    requires Totalled(p, ks, ts)
    requires q < |ks| && ks[q] == x.kind
    ensures Totalled(p + [x], ks, ts[q := Add(ts[q], x)])
  {
    KindsSnoc(p, x);
    var ts' := ts[q := Add(ts[q], x)];
    forall k | 0 <= k < |ks| ensures ts'[k] == TotalOf(p + [x], ks[k]) {
      TotalJoinAt(p, x, ks, ts, q, k);
    }
  }

  /** After a listing of a new type, each old counter is still right and the new one holds that listing alone. */
  lemma {:induction false} TotalOpenAt(p: seq<Listing>, x: Listing, ks: seq<AccommodationType>, ts: seq<TypeTotal>, k: nat)
    requires Totalled(p, ks, ts)
    requires x.kind !in ks && k <= |ks|
    ensures (ts + [Add(TypeTotal(x.kind, 0, 0.0), x)])[k] == TotalOf(p + [x], (ks + [x.kind])[k])
  {
    if k < |ks| {
      TotalOfSnoc(p, x, ks[k]);
    } else {
      OfKindAbsent(p, x.kind);
      TotalOfSnoc(p, x, x.kind);
    }
  }

  lemma {:induction false} TotalOpen(p: seq<Listing>, x: Listing, ks: seq<AccommodationType>, ts: seq<TypeTotal>)
    requires Totalled(p, ks, ts)
    requires x.kind !in ks
    ensures Totalled(p + [x], ks + [x.kind], ts + [Add(TypeTotal(x.kind, 0, 0.0), x)])
  {
    KindsSnoc(p, x);
    var ks', ts' := ks + [x.kind], ts + [Add(TypeTotal(x.kind, 0, 0.0), x)];
    forall k | 0 <= k < |ks'| ensures ts'[k] == TotalOf(p + [x], ks'[k]) {
      TotalOpenAt(p, x, ks, ts, k);
    }
  }

  /** The first `forEach` callback. */
  method Accumulate(ghost p: seq<Listing>, ks: seq<AccommodationType>, ts: seq<TypeTotal>, x: Listing)
    returns (ks': seq<AccommodationType>, ts': seq<TypeTotal>)
    requires Totalled(p, ks, ts)
    ensures Totalled(p + [x], ks', ts')
  {
    var found := IndexOf(ks, x.kind);
    if found.Some? {
      TotalJoin(p, x, ks, ts, found.value);
      ks', ts' := ks, ts[found.value := Add(ts[found.value], x)];
    } else {
      TotalOpen(p, x, ks, ts);
      ks', ts' := ks + [x.kind], ts + [Add(TypeTotal(x.kind, 0, 0.0), x)];
    }
  }

  /** The first `forEach`: one counter per type present, in first-occurrence order. */
  method TotalByKind(ls: seq<Listing>) returns (ks: seq<AccommodationType>, ts: seq<TypeTotal>)
    ensures ks == Kinds(ls) && |ts| == |ks|
    ensures forall k :: 0 <= k < |ks| ==> ts[k] == TotalOf(ls, ks[k])
  {
    ks, ts := [], [];
    assert ls[..0] == [];
    var i := 0;
    while i < |ls|
      invariant 0 <= i <= |ls|
      invariant Totalled(ls[..i], ks, ts)
    {
      PrefixSnoc(ls, i);
      ks, ts := Accumulate(ls[..i], ks, ts, ls[i]);
      i := i + 1;
    }
    assert ls[..i] == ls;
  }

  /** `avgPrice = totalPrice / count`, `totalPrice` deleted. */
  function Averaged(c: TypeTotal): TypeAverage
    requires c.count > 0
  {
    TypeAverage(c.kind, c.count, c.totalPrice / (c.count as real))
  }

  ghost predicate AveragedUpTo(b: seq<TypeAverage>, ts: seq<TypeTotal>, k: nat)
  {
    && |b| == k <= |ts|
    && forall j :: 0 <= j < k ==> ts[j].count > 0 && b[j] == Averaged(ts[j])
  }

  lemma {:induction false} AveragedStep(b: seq<TypeAverage>, ts: seq<TypeTotal>, k: nat)
    requires AveragedUpTo(b, ts, k) && k < |ts| && ts[k].count > 0
    ensures AveragedUpTo(b + [Averaged(ts[k])], ts, k + 1)
  {
    var b' := b + [Averaged(ts[k])];
    forall j | 0 <= j < k + 1 ensures b'[j] == Averaged(ts[j]) {
      if j < k {
        assert b'[j] == b[j];
      }
    }
  }

  function AverageCounts(b: seq<TypeAverage>): (s: seq<int>)
    ensures |s| == |b|
  {
    seq(|b|, k requires 0 <= k < |b| => b[k].count)
  }

  /**
   * Both `forEach`s: one entry per type present, in first-occurrence order, whose
   * `avgPrice` is the mean price of that type's listings and whose counts add up
   * to the number of listings.
   */
  method AveragePriceByType(ls: seq<Listing>) returns (byType: seq<TypeAverage>)
    ensures |byType| == |Kinds(ls)|
    ensures forall k :: 0 <= k < |byType| ==>
      && byType[k].kind == Kinds(ls)[k]
      && byType[k].count == |OfKind(ls, Kinds(ls)[k])| > 0
      && byType[k].avgPrice == Mean(Prices(OfKind(ls, Kinds(ls)[k])))
    ensures SumInt(AverageCounts(byType)) == |ls|
  {
    var ks, ts := TotalByKind(ls);
    byType := [];
    var k := 0;
    while k < |ts|
      invariant AveragedUpTo(byType, ts, k)
    {
      KindsNonEmpty(ls, ks[k]);
      AveragedStep(byType, ts, k);
      byType := byType + [Averaged(ts[k])];
      k := k + 1;
    }
    forall j | 0 <= j < |byType|
      ensures byType[j].kind == ks[j] && byType[j].count == |OfKind(ls, ks[j])| > 0
      ensures byType[j].avgPrice == Mean(Prices(OfKind(ls, ks[j])))
    {
      assert byType[j] == Averaged(ts[j]);
    }
    assert AverageCounts(byType) == Sizes(ls);
    CountsPartition(ls);
  }
}
