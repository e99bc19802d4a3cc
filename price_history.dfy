/**
 * The per-listing price history of `server/models/Accommodation.js`: the trailing
 * window, the percentage trend `getPriceTrend`, the `averagePrice` virtual and the
 * one-year retention that `addPriceToHistory` applies after every append.
 */
module PriceHistory {
  import opened Wrappers
  import opened Numeric
  import opened Sorting
  import opened Listings

  /** `cutoffDate.setDate(cutoffDate.getDate() - days)` with a fixed day length. */
  function Cutoff(days: int, now: int): int
  {
    now - days * DAY
  }

  /** The filter condition `(item) => item.date >= cutoff`. */
  function Since(cutoff: int): PriceSample -> bool
  {
    (s: PriceSample) => s.date >= cutoff
  }

  /** `history.filter((item) => item.date >= cutoff)`. */
  function Window(h: seq<PriceSample>, cutoff: int): (w: seq<PriceSample>)
    ensures forall i :: 0 <= i < |w| ==> w[i].date >= cutoff
    ensures forall s :: s in w <==> s in h && s.date >= cutoff
  {
    Filter(h, Since(cutoff))
  }

  lemma {:induction false} WindowConcat(a: seq<PriceSample>, b: seq<PriceSample>, cutoff: int)
    ensures Window(a + b, cutoff) == Window(a, cutoff) + Window(b, cutoff)
  {
    FilterConcat(a, b, Since(cutoff));
  }

  lemma {:induction false} WindowPermutation(a: seq<PriceSample>, b: seq<PriceSample>, cutoff: int)
    requires multiset(a) == multiset(b)
    ensures multiset(Window(a, cutoff)) == multiset(Window(b, cutoff))
  {
    FilterPermutation(a, b, Since(cutoff));
  }

  function DateKey(s: PriceSample): real
  {
    s.date as real
  }

  /** `.sort((a, b) => a.date - b.date)`: stable, ascending by date. */
  function ByDate(w: seq<PriceSample>): seq<PriceSample>
  {
    SortBy(w, DateKey)
  }

  /** The `recentPrices` array of `getPriceTrend`: the in-window samples, oldest first. */
  function Recent(h: seq<PriceSample>, days: int, now: int): seq<PriceSample>
  {
    ByDate(Window(h, Cutoff(days, now)))
  }

  /**
   * The in-window samples, oldest first: as many as the window holds, each dated
   * on or after the cutoff and taken from the history, in non-decreasing date
   * order, and no in-window sample left out.
   */
  lemma {:induction false} RecentInWindow(h: seq<PriceSample>, days: int, now: int)
    ensures var r := Recent(h, days, now);
      && |r| == |Window(h, Cutoff(days, now))|
      && (forall i :: 0 <= i < |r| ==> r[i].date >= Cutoff(days, now) && r[i] in h)
      && (forall i, j :: 0 <= i < j < |r| ==> r[i].date <= r[j].date)
      && (forall s :: s in h && s.date >= Cutoff(days, now) ==> s in r)
  {
    var w := Window(h, Cutoff(days, now));
    var r := Recent(h, days, now);
    assert SortedBy(r, DateKey);
    forall i | 0 <= i < |r| ensures r[i].date >= Cutoff(days, now) && r[i] in h {
      assert r[i] in multiset(w);
    }
    forall i, j | 0 <= i < j < |r| ensures r[i].date <= r[j].date {
      assert DateKey(r[i]) <= DateKey(r[j]);
    }
    forall s | s in h && s.date >= Cutoff(days, now) ensures s in r {
      assert s in multiset(w);
    }
  }

  /**
   * The code divides by the oldest in-window price without a zero guard; the
   * model admits exactly the histories on which that division happens with a
   * non-zero divisor, or does not happen at all.
   */
  predicate TrendDefined(h: seq<PriceSample>, days: int, now: int)
  {
    var r := Recent(h, days, now);
    |h| < 2 || |r| < 2 || r[0].price != 0.0
  }

  /** `getPriceTrend(days)`: percentage change from the oldest to the newest in-window price. */
  function Trend(h: seq<PriceSample>, now: int, days: int := 30): real
    requires TrendDefined(h, days, now)
  {
    if |h| < 2 then 0.0
    else
      var r := Recent(h, days, now);
      if |r| < 2 then 0.0
      else
        (r[|r| - 1].price - r[0].price) / r[0].price * 100.0
  }

  /** Fewer than two samples in the whole history, or in the window, give no signal. */
  lemma {:induction false} TrendSparse(h: seq<PriceSample>, days: int, now: int)
    requires |Window(h, Cutoff(days, now))| < 2
    ensures TrendDefined(h, days, now)
    ensures Trend(h, now, days) == 0.0
  {
  }

  /** With a positive oldest price, the sign of the trend is the sign of newest minus oldest. */
  lemma {:induction false} TrendSign(h: seq<PriceSample>, days: int, now: int)
    requires |Window(h, Cutoff(days, now))| >= 2
    requires Recent(h, days, now)[0].price > 0.0
    ensures TrendDefined(h, days, now)
    ensures var r := Recent(h, days, now);
      && (Trend(h, now, days) > 0.0 <==> r[|r| - 1].price > r[0].price)
      && (Trend(h, now, days) == 0.0 <==> r[|r| - 1].price == r[0].price)
      && (Trend(h, now, days) < 0.0 <==> r[|r| - 1].price < r[0].price)
  {
    var r := Recent(h, days, now);
    var w := Window(h, Cutoff(days, now));
    assert |w| <= |h|;
    var d := r[|r| - 1].price - r[0].price;
    assert Trend(h, now, days) == d / r[0].price * 100.0;
    SignOfQuotient(d, r[0].price);
  }

  lemma {:induction false} SignOfQuotient(d: real, p: real)
    requires p > 0.0
    ensures d / p * 100.0 > 0.0 <==> d > 0.0
    ensures d / p * 100.0 == 0.0 <==> d == 0.0
    ensures d / p * 100.0 < 0.0 <==> d < 0.0
  {
    assert d / p * p == d;
  }

  /** The trend is a function of the history's length and its in-window samples only. */
  lemma {:induction false} TrendFromWindow(h: seq<PriceSample>, h': seq<PriceSample>, days: int, now: int)
    requires Window(h, Cutoff(days, now)) == Window(h', Cutoff(days, now))
    requires TrendDefined(h, days, now)
    ensures TrendDefined(h', days, now)
    ensures Trend(h', now, days) == Trend(h, now, days)
  {
    var w := Window(h, Cutoff(days, now));
    assert |w| <= |h| && |w| <= |h'|;
    assert Recent(h, days, now) == Recent(h', days, now);
  }

  /** A sample dated before the cutoff, inserted anywhere, leaves the trend unchanged. */
  lemma {:induction false} TrendIgnoresOldSample(a: seq<PriceSample>, x: PriceSample, b: seq<PriceSample>, days: int, now: int)
    requires x.date < Cutoff(days, now)
    requires TrendDefined(a + b, days, now)
    ensures TrendDefined(a + [x] + b, days, now)
    ensures Trend(a + [x] + b, now, days) == Trend(a + b, now, days)
  {
    var c := Cutoff(days, now);
    WindowConcat(a + [x], b, c);
    WindowConcat(a, [x], c);
    WindowConcat(a, b, c);
    assert Window([x], c) == [];
    TrendFromWindow(a + b, a + [x] + b, days, now);
  }

  /** Samples whose dates coincide are the same sample (so sorting by date leaves no tie to break). */
  ghost predicate DatesIdentify(h: seq<PriceSample>)
  {
    forall i, j :: 0 <= i < |h| && 0 <= j < |h| && h[i].date == h[j].date ==> h[i] == h[j]
  }

  /**
   * The trend depends only on which samples the history holds, not on their
   * order, as long as no two different samples share a date.
   */
  lemma {:induction false} TrendOrderIndependent(h: seq<PriceSample>, h': seq<PriceSample>, days: int, now: int)
    requires multiset(h) == multiset(h')
    requires DatesIdentify(h)
    requires TrendDefined(h, days, now)
    ensures TrendDefined(h', days, now)
    ensures Trend(h', now, days) == Trend(h, now, days)
  {
    var c := Cutoff(days, now);
    var w, w' := Window(h, c), Window(h', c);
    WindowPermutation(h, h', c);
    assert |h| == |h'| by {
      assert |multiset(h)| == |multiset(h')|;
    }
    assert |w| == |w'| by {
      assert |multiset(w)| == |multiset(w')|;
    }
    if |w| > 0 {
      SameEnds(h, w, w');
    }
    TrendFromEnds(h, h', days, now);
  }

  /** Histories of equal length whose sorted windows agree at both ends have the same trend. */
  lemma {:induction false} TrendFromEnds(h: seq<PriceSample>, h': seq<PriceSample>, days: int, now: int)
    requires |h| == |h'|
    requires var r, r' := Recent(h, days, now), Recent(h', days, now);
      |r| == |r'| && (|r| > 0 ==> r[0] == r'[0] && r[|r| - 1] == r'[|r'| - 1])
    requires TrendDefined(h, days, now)
    ensures TrendDefined(h', days, now)
    ensures Trend(h', now, days) == Trend(h, now, days)
  {
  }

  /** Sorting two permuted windows of a `DatesIdentify` history gives the same first and last sample. */
  lemma {:induction false} SameEnds(h: seq<PriceSample>, w: seq<PriceSample>, w': seq<PriceSample>)
    requires DatesIdentify(h)
    requires multiset(w) == multiset(w')
    requires forall s :: s in w ==> s in h
    requires |w| == |w'| > 0
    ensures ByDate(w)[0] == ByDate(w')[0]
    ensures ByDate(w)[|w| - 1] == ByDate(w')[|w'| - 1]
  {
    var r, r' := ByDate(w), ByDate(w');
    var n := |w| - 1;
    ByDateEnds(w);
    ByDateEnds(w');
    SameExtreme(h, w, w', r[0], r'[0], true);
    SameExtreme(h, w, w', r[n], r'[n], false);
  }

  /** The first sorted sample has the least date of the window and the last the greatest. */
  lemma {:induction false} ByDateEnds(w: seq<PriceSample>)
    requires |w| > 0
    ensures |ByDate(w)| == |w|
    ensures ByDate(w)[0] in w && ByDate(w)[|w| - 1] in w
    ensures forall i :: 0 <= i < |w| ==> ByDate(w)[0].date <= w[i].date <= ByDate(w)[|w| - 1].date
  {
    SortedEnds(w, DateKey);
    var r := ByDate(w);
    forall i | 0 <= i < |w| ensures r[0].date <= w[i].date <= r[|w| - 1].date {
      assert DateKey(r[0]) <= DateKey(w[i]) <= DateKey(r[|w| - 1]);
    }
  }

  /** Two extreme-date samples of permuted windows of a `DatesIdentify` history coincide. */
  lemma {:induction false} SameExtreme(h: seq<PriceSample>, w: seq<PriceSample>, w': seq<PriceSample>,
                    e: PriceSample, e': PriceSample, least: bool)
    requires DatesIdentify(h)
    requires multiset(w) == multiset(w')
    requires forall s :: s in w ==> s in h
    requires e in w && e' in w'
    requires least ==> forall i :: 0 <= i < |w| ==> e.date <= w[i].date
    requires least ==> forall i :: 0 <= i < |w'| ==> e'.date <= w'[i].date
    requires !least ==> forall i :: 0 <= i < |w| ==> w[i].date <= e.date
    requires !least ==> forall i :: 0 <= i < |w'| ==> w'[i].date <= e'.date
    ensures e == e'
  {
    assert e in multiset(w) && e' in multiset(w');
    assert e' in w && e in w';
    var i :| 0 <= i < |w| && w[i] == e';
    var i' :| 0 <= i' < |w'| && w'[i'] == e;
    assert e.date == e'.date;
    assert e in h && e' in h;
    var k :| 0 <= k < |h| && h[k] == e;
    var k' :| 0 <= k' < |h| && h[k'] == e';
  }

  /**
   * When two different samples share a date the stable sort keeps their input
   * order, so reordering the history can change the trend.
   */
  lemma {:induction false} TrendDependsOnOrderOfTies()
    ensures var a, b := PriceSample(0, 100.0, true, None), PriceSample(0, 200.0, true, None);
      && TrendDefined([a, b], 30, 0) && TrendDefined([b, a], 30, 0)
      && Trend([a, b], 0) == 100.0 && Trend([b, a], 0) == -50.0
  {
    var a, b := PriceSample(0, 100.0, true, None), PriceSample(0, 200.0, true, None);
    TieOrderKept(a, b);
    TieOrderKept(b, a);
    assert Recent([a, b], 30, 0) == [a, b];
    assert Recent([b, a], 30, 0) == [b, a];
  }

  /**
   * For any history, the in-window samples that share a date appear in
   * `recentPrices` in their history order.
   */
  lemma {:induction false} TiesKeepHistoryOrder(h: seq<PriceSample>, days: int, now: int, date: int)
    ensures Filter(Recent(h, days, now), KeyIs(DateKey, date as real))
      == Filter(Window(h, Cutoff(days, now)), KeyIs(DateKey, date as real))
  {
    SortByStable(Window(h, Cutoff(days, now)), DateKey, date as real);
  }

  /** The instance `TrendDependsOnOrderOfTies` uses: two samples both dated 0 stay in input order. */
  lemma {:induction false} TieOrderKept(x: PriceSample, y: PriceSample)
    requires x.date == y.date == 0
    ensures Recent([x, y], 30, 0) == [x, y]
  {
    var c := Cutoff(30, 0);
    assert Since(c)([x, y][0]) && Since(c)([x, y][1]);
    FilterAll([x, y], Since(c));
    OrderedPairKept(x, y, DateKey);
  }

  /** The prices of a history, in order. */
  function SamplePrices(h: seq<PriceSample>): (ps: seq<real>)
    ensures |ps| == |h|
    ensures forall i :: 0 <= i < |h| ==> ps[i] == h[i].price
  {
    seq(|h|, i requires 0 <= i < |h| => h[i].price)
  }

  /** The `averagePrice` virtual: `currentPrice` for an empty history, else the mean sample price. */
  function AveragePrice(l: Listing): real
  {
    if |l.priceHistory| == 0 then l.currentPrice else Mean(SamplePrices(l.priceHistory))
  }

  lemma {:induction false} AveragePriceBounds(l: Listing)
    ensures |l.priceHistory| == 0 ==> AveragePrice(l) == l.currentPrice
    ensures |l.priceHistory| > 0 ==>
      var ps := SamplePrices(l.priceHistory); Min(ps) <= AveragePrice(l) <= Max(ps)
  {
    if |l.priceHistory| > 0 {
      MeanBounds(SamplePrices(l.priceHistory));
    }
  }

  /** The history `addPriceToHistory` leaves: push the sample, then keep the last 365 days. */
  function AppendAndPrune(h: seq<PriceSample>, sample: PriceSample, now: int): seq<PriceSample>
  {
    Window(h + [sample], now - YEAR)
  }

  /**
   * After an append at `now`: nothing older than a year survives, nothing within
   * the year is lost, the survivors keep their order and the new sample is last.
   */
  lemma {:induction false} AppendAndPruneSpec(h: seq<PriceSample>, sample: PriceSample, now: int)
    requires sample.date == now
    ensures AppendAndPrune(h, sample, now) == Window(h, now - YEAR) + [sample]
    ensures forall i :: 0 <= i < |AppendAndPrune(h, sample, now)| ==> AppendAndPrune(h, sample, now)[i].date >= now - YEAR
    ensures forall s :: s in h && s.date >= now - YEAR ==> s in AppendAndPrune(h, sample, now)
  {
    AppendAndPruneRetains(h, sample, now);
    AppendAndPruneShape(h, sample, now);
  }

  lemma {:induction false} AppendAndPruneShape(h: seq<PriceSample>, sample: PriceSample, now: int)
    requires sample.date == now
    ensures AppendAndPrune(h, sample, now) == Window(h, now - YEAR) + [sample]
  {
    var c := now - YEAR;
    assert sample.date >= c;
    assert Since(c)(sample);
    FilterSnoc(h, sample, Since(c));
  }

  lemma {:induction false} AppendAndPruneRetains(h: seq<PriceSample>, sample: PriceSample, now: int)
    ensures forall s :: s in h && s.date >= now - YEAR ==> s in AppendAndPrune(h, sample, now)
  {
    forall s | s in h && s.date >= now - YEAR
      ensures s in AppendAndPrune(h, sample, now)
    {
      assert s in h + [sample];
    }
  }
}
