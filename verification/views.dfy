/** The three dashboard pages: the general analytics, the per-manager
    analytics and the activity forecast, each as the data it shows. */
module Views {
  import opened Wrappers
  import opened Seqs
  import opened Deals
  import opened Daily
  import opened Rolling
  import opened Metrics

  /** The deal counts of a daily series, as the floats pandas averages. */
  function Totals(bs: seq<Bucket>): (xs: seq<real>)
    ensures |xs| == |bs|
    ensures forall i :: 0 <= i < |bs| ==> xs[i] == bs[i].total as real
  {
    seq(|bs|, i requires 0 <= i < |bs| => bs[i].total as real)
  }

  /** The counts of a daily series add up to its number of deals. */
  lemma {:induction false} TotalsSum(bs: seq<Bucket>)
    ensures Sum(Totals(bs)) == SumTotals(bs) as real
  {
    if |bs| > 0 {
      SumFront(Totals(bs));
      TotalsSum(bs[1..]);
      assert Totals(bs)[1..] == Totals(bs[1..]);
    }
  }

  /** The per-day counts the forecast averages account for every deal with
      a parseable creation date, and for no other. */
  lemma DailyCountsCoverDatedDeals(ds: seq<Deal>)
    ensures Sum(Totals(DailyBuckets(ds))) == Count(ds, HasCreateDate) as real
  {
    TotalsSum(DailyBuckets(ds));
    DailyBucketsCount(ds);
  }

  // ---------------------------------------------------------------------
  // General analytics
  // ---------------------------------------------------------------------

  /** One row of the activity chart: a day, its deal count and the
      three-day moving average. */
  datatype TrendPoint = TrendPoint(day: int, count: nat, average: Option<real>)

  /** Daily activity with `rolling(window=3).mean()`, from the per-day
      buckets. */
  function Trend(bs: seq<Bucket>): (t: seq<TrendPoint>)
    ensures |t| == |bs|
    ensures forall i :: 0 <= i < |t| ==> t[i].day == bs[i].day && t[i].count == bs[i].total
    ensures forall i {:trigger t[i].average} :: 0 <= i < |t| ==>
              t[i].average == if i < 2 then None
                              else Some((t[i - 2].count as real + t[i - 1].count as real + t[i].count as real) / 3.0)
  {
    var xs := Totals(bs);
    var avg := RollingMean(xs, 3, 3);
    TrailingThree(xs);
    seq(|bs|, i requires 0 <= i < |bs| => TrendPoint(bs[i].day, bs[i].total, avg[i]))
  }

  /** The chart's days come in date order, each counting that day's deals. */
  lemma TrendCounts(ds: seq<Deal>)
    ensures var t := Trend(DailyBuckets(ds));
            && (forall i, j :: 0 <= i < j < |t| ==> t[i].day < t[j].day)
            && (forall i :: 0 <= i < |t| ==> 1 <= t[i].count == Count(ds, OnDay(t[i].day)))
  {
    DailyBucketsContents(ds);
  }

  /** The chart has a point exactly for the days with a dated deal. */
  lemma TrendDays(ds: seq<Deal>)
    ensures var t := Trend(DailyBuckets(ds));
            forall d :: Count(ds, OnDay(d)) > 0 <==> exists i :: 0 <= i < |t| && t[i].day == d
  {
    var bs := DailyBuckets(ds);
    var t := Trend(bs);
    DailyBucketsCount(ds);
    DaysMembers(bs);
    forall d ensures Count(ds, OnDay(d)) > 0 <==> exists i :: 0 <= i < |t| && t[i].day == d {
      if exists i :: 0 <= i < |bs| && bs[i].day == d {
        var i :| 0 <= i < |bs| && bs[i].day == d;
        assert t[i].day == d;
      }
      if exists i :: 0 <= i < |t| && t[i].day == d {
        var i :| 0 <= i < |t| && t[i].day == d;
        assert bs[i].day == d;
      }
    }
  }

  /** What the general page shows. */
  datatype Overview = Overview(fellBack: bool, metrics: PointMetrics, trend: seq<TrendPoint>)

  /** The general page for the range `startDay..endDay`. */
  function OverviewOf(ds: seq<Deal>, startDay: int, endDay: int): (o: Overview)
    ensures o.fellBack <==> forall i :: 0 <= i < |ds| ==> !InRange(ds[i], startDay, endDay)
    ensures o.fellBack ==> o.metrics == OverviewMetrics(ds) && o.trend == Trend(DailyBuckets(ds))
    ensures !o.fellBack ==> o.metrics.total == Count(ds, InRangeOf(startDay, endDay)) > 0
    ensures |ds| > 0 ==> o.metrics.total > 0
    ensures !o.fellBack ==>
              && o.metrics == OverviewMetrics(Filter(ds, InRangeOf(startDay, endDay)))
              && o.trend == Trend(DailyBuckets(Filter(ds, InRangeOf(startDay, endDay))))
  {
    var sel := SelectRange(ds, startDay, endDay);
    Overview(sel.fellBack, OverviewMetrics(sel.deals), Trend(DailyBuckets(sel.deals)))
  }

  /** Within the range, the won count is the number of won deals created in
      the range. */
  lemma OverviewWonInRange(ds: seq<Deal>, startDay: int, endDay: int)
    ensures var o := OverviewOf(ds, startDay, endDay);
            !o.fellBack ==> o.metrics.won == Count(ds, Both(InRangeOf(startDay, endDay), IsWon))
  {
    CountFilter(ds, InRangeOf(startDay, endDay), IsWon);
  }

  /** Within the range, every charted day lies between the two dates. */
  lemma OverviewTrendInRange(ds: seq<Deal>, startDay: int, endDay: int)
    ensures var o := OverviewOf(ds, startDay, endDay);
            !o.fellBack ==> forall i :: 0 <= i < |o.trend| ==> startDay <= o.trend[i].day <= endDay
  {
    var sel := SelectRange(ds, startDay, endDay);
    if !sel.fellBack {
      TrendWithinRange(sel.deals, startDay, endDay);
    }
  }

  /** The trend of deals all created in a range charts only days of that
      range. */
  lemma TrendWithinRange(ds: seq<Deal>, startDay: int, endDay: int)
    requires forall i :: 0 <= i < |ds| ==> InRange(ds[i], startDay, endDay)
    ensures forall i :: 0 <= i < |Trend(DailyBuckets(ds))| ==>
              startDay <= Trend(DailyBuckets(ds))[i].day <= endDay
  {
    var t := Trend(DailyBuckets(ds));
    TrendCounts(ds);
    DaysWithinRange(ds, startDay, endDay);
    forall i | 0 <= i < |t| ensures startDay <= t[i].day <= endDay {
      assert Count(ds, OnDay(t[i].day)) > 0;
    }
  }

  /** A day that has a deal of a range-filtered selection lies in the range. */
  lemma DaysWithinRange(ds: seq<Deal>, startDay: int, endDay: int)
    requires forall i :: 0 <= i < |ds| ==> InRange(ds[i], startDay, endDay)
    ensures forall d :: Count(ds, OnDay(d)) > 0 ==> startDay <= d <= endDay
  {
    forall d | Count(ds, OnDay(d)) > 0 ensures startDay <= d <= endDay {
      var i :| 0 <= i < |ds| && OnDay(d)(ds[i]);
      var t := ds[i].dateCreate.value;
      DayWithin(t, startDay, endDay);
    }
  }

  /** `Midnight(a) <= t <= Midnight(b)` puts the day of `t` in `a..b`. */
  lemma DayWithin(t: Timestamp, a: int, b: int)
    requires Midnight(a) <= t <= Midnight(b)
    ensures a <= DayOf(t) <= b
  {
  }

  // ---------------------------------------------------------------------
  // Per-manager analytics
  // ---------------------------------------------------------------------

  /** One row of the conversion chart: a day, its deals, its won deals,
      their ratio and the three-day moving average of the ratio. */
  datatype ConversionPoint = ConversionPoint(day: int, total: nat, won: nat, ratio: real, average: Option<real>)

  /** `выиграно / всего` of each bucket. */
  function Ratios(bs: seq<Bucket>): (xs: seq<real>)
    requires WellFormed(bs)
    ensures |xs| == |bs|
    ensures forall i :: 0 <= i < |bs| ==> 0.0 <= xs[i] <= 1.0 && xs[i] * bs[i].total as real == bs[i].won as real
  {
    RatioBounds(bs);
    seq(|bs|, i requires 0 <= i < |bs| => bs[i].won as real / bs[i].total as real)
  }

  lemma RatioBounds(bs: seq<Bucket>)
    requires WellFormed(bs)
    ensures forall i :: 0 <= i < |bs| ==>
              && 0.0 <= bs[i].won as real / bs[i].total as real <= 1.0
              && (bs[i].won as real / bs[i].total as real) * bs[i].total as real == bs[i].won as real
  {
    forall i | 0 <= i < |bs|
      ensures && 0.0 <= bs[i].won as real / bs[i].total as real <= 1.0
              && (bs[i].won as real / bs[i].total as real) * bs[i].total as real == bs[i].won as real
    {
      FractionBounds(bs[i].won, bs[i].total);
    }
  }

  /** The chart rows from the buckets, their ratios and the moving
      averages of the ratios. */
  function ConversionPoints(bs: seq<Bucket>, xs: seq<real>, avg: seq<Option<real>>): seq<ConversionPoint>
    requires |xs| == |bs| && |avg| == |bs|
  {
    seq(|bs|, i requires 0 <= i < |bs| => ConversionPoint(bs[i].day, bs[i].total, bs[i].won, xs[i], avg[i]))
  }

  /** Daily conversion with `rolling(window=3).mean()`. */
  function ConversionSeries(bs: seq<Bucket>): (cs: seq<ConversionPoint>)
    requires WellFormed(bs)
    ensures |cs| == |bs|
    ensures forall i :: 0 <= i < |cs| ==>
              cs[i].day == bs[i].day && cs[i].total == bs[i].total && cs[i].won == bs[i].won
    ensures forall i :: 0 <= i < |cs| ==>
              && 1 <= cs[i].total && cs[i].won <= cs[i].total
              && 0.0 <= cs[i].ratio <= 1.0
              && cs[i].ratio * cs[i].total as real == cs[i].won as real
    ensures forall i {:trigger cs[i].average} :: 0 <= i < |cs| ==>
              cs[i].average == if i < 2 then None
                               else Some((cs[i - 2].ratio + cs[i - 1].ratio + cs[i].ratio) / 3.0)
  {
    var xs := Ratios(bs);
    var avg := RollingMean(xs, 3, 3);
    TrailingThree(xs);
    ConversionPoints(bs, xs, avg)
  }

  /** The moving average of a conversion ratio is itself a ratio. */
  lemma ConversionAverageBounds(bs: seq<Bucket>)
    requires WellFormed(bs)
    ensures var cs := ConversionSeries(bs);
            forall i :: 0 <= i < |cs| && cs[i].average.Some? ==> 0.0 <= cs[i].average.value <= 1.0
  {
    var cs := ConversionSeries(bs);
    forall i | 0 <= i < |cs| && cs[i].average.Some?
      ensures 0.0 <= cs[i].average.value <= 1.0
    {
      var a, b, c := cs[i - 2].ratio, cs[i - 1].ratio, cs[i].ratio;
      assert 0.0 <= a + b + c <= 3.0;
    }
  }

  /** What the per-manager page shows. */
  datatype ManagerReport = ManagerReport(fellBack: bool, metrics: PointMetrics, daily: seq<ConversionPoint>)

  /** The per-manager page: nothing (the page stops) when the manager has
      no deal at all; otherwise the manager's deals in the range, or all of
      them when the range holds none. */
  function ManagerView(ds: seq<Deal>, manager: int, startDay: int, endDay: int): (r: Option<ManagerReport>)
    ensures r.None? <==> forall i :: 0 <= i < |ds| ==> !AssignedTo(ds[i], manager)
    ensures r.Some? ==>
              && (r.value.fellBack <==> Count(ds, Both(AssignedToOf(manager), InRangeOf(startDay, endDay))) == 0)
              && r.value.metrics.total > 0
              && r.value.metrics.total ==
                   if r.value.fellBack then Count(ds, AssignedToOf(manager))
                   else Count(ds, Both(AssignedToOf(manager), InRangeOf(startDay, endDay)))
    ensures r.Some? && r.value.fellBack ==>
              && r.value.metrics == ManagerMetrics(Filter(ds, AssignedToOf(manager)))
              && r.value.daily == ConversionSeries(DailyBuckets(Filter(ds, AssignedToOf(manager))))
    ensures r.Some? && !r.value.fellBack ==>
              && r.value.metrics ==
                   ManagerMetrics(Filter(Filter(ds, AssignedToOf(manager)), InRangeOf(startDay, endDay)))
              && r.value.daily ==
                   ConversionSeries(DailyBuckets(Filter(Filter(ds, AssignedToOf(manager)), InRangeOf(startDay, endDay))))
  {
    var mine := Filter(ds, AssignedToOf(manager));
    if |mine| == 0 then None
    else
      var sel := SelectRange(mine, startDay, endDay);
      CountFilter(ds, AssignedToOf(manager), InRangeOf(startDay, endDay));
      Some(ManagerReport(sel.fellBack, ManagerMetrics(sel.deals), ConversionSeries(DailyBuckets(sel.deals))))
  }

  // ---------------------------------------------------------------------
  // Activity forecast
  // ---------------------------------------------------------------------

  /** One row of the forecast chart: a day, its deal count and the forecast
      `rolling(window=3, min_periods=1).mean()`. */
  datatype ForecastPoint = ForecastPoint(day: int, count: nat, forecast: real)

  /** What the forecast page shows: the series and whether the warning is
      raised. */
  datatype ForecastReport = ForecastReport(points: seq<ForecastPoint>, anomaly: bool)

  /** The warning condition on a series of counts: at least two days, and
      the last count below its forecast. */
  predicate Anomaly(xs: seq<real>) {
    |xs| >= 2 &&
    match RollingMean(xs, 3, 1)[|xs| - 1]
    case Some(f) => xs[|xs| - 1] < f
    case None => false
  }

  /** The warning fires exactly when the last count is below the mean of
      the (up to two) counts before it: the forecast window holds the last
      count itself. */
  lemma AnomalyBelowRecent(xs: seq<real>)
    ensures var n := |xs|;
            Anomaly(xs) <==>
              && n >= 2
              && (n == 2 ==> xs[1] < xs[0])
              && (n >= 3 ==> xs[n - 1] < (xs[n - 3] + xs[n - 2]) / 2.0)
  {
    TrailingThreeFromOne(xs);
    var n := |xs|;
    if n >= 2 {
      var f := RollingMean(xs, 3, 1)[n - 1];
      if n == 2 {
        assert f == Some((xs[0] + xs[1]) / 2.0);
        assert xs[1] < (xs[0] + xs[1]) / 2.0 <==> 2.0 * xs[1] < xs[0] + xs[1];
      } else {
        var a, b, x := xs[n - 3], xs[n - 2], xs[n - 1];
        assert f == Some((a + b + x) / 3.0);
        assert x < (a + b + x) / 3.0 <==> 3.0 * x < a + b + x;
        assert x < (a + b) / 2.0 <==> 2.0 * x < a + b;
      }
    }
  }

  /** The forecast series over the per-day buckets. */
  function ForecastSeries(bs: seq<Bucket>): (ps: seq<ForecastPoint>)
    ensures |ps| == |bs|
    ensures forall i :: 0 <= i < |ps| ==> ps[i].day == bs[i].day && ps[i].count == bs[i].total
    ensures forall i {:trigger ps[i].forecast} :: 0 <= i < |ps| ==>
              ps[i].forecast ==
                if i == 0 then ps[0].count as real
                else if i == 1 then (ps[0].count as real + ps[1].count as real) / 2.0
                else (ps[i - 2].count as real + ps[i - 1].count as real + ps[i].count as real) / 3.0
    ensures forall i :: 0 <= i < |ps| ==> RollingMean(Totals(bs), 3, 1)[i] == Some(ps[i].forecast)
  {
    var xs := Totals(bs);
    var fc := RollingMean(xs, 3, 1);
    TrailingThreeFromOne(xs);
    seq(|bs|, i requires 0 <= i < |bs| => ForecastPoint(bs[i].day, bs[i].total, fc[i].value))
  }

  /** The warning condition read off the chart: at least two days, and the
      last day's count below its forecast. */
  predicate BelowForecast(ps: seq<ForecastPoint>) {
    |ps| >= 2 && (ps[|ps| - 1].count as real) < ps[|ps| - 1].forecast
  }

  /** The warning computed on the counts is the one read off the chart. */
  lemma AnomalyOnChart(bs: seq<Bucket>)
    ensures Anomaly(Totals(bs)) <==> BelowForecast(ForecastSeries(bs))
  {
    var ps := ForecastSeries(bs);
    if |ps| >= 2 {
      assert RollingMean(Totals(bs), 3, 1)[|ps| - 1] == Some(ps[|ps| - 1].forecast);
    }
  }

  /** The forecast page over every deal with a parseable creation date. */
  function ForecastOf(ds: seq<Deal>): (f: ForecastReport)
    ensures f.points == ForecastSeries(DailyBuckets(ds))
    ensures f.anomaly <==> BelowForecast(f.points)
  {
    var bs := DailyBuckets(ds);
    AnomalyOnChart(bs);
    ForecastReport(ForecastSeries(bs), Anomaly(Totals(bs)))
  }

  /** Three days of 10 then a day of 4: the forecast for the last day is 8
      (10, 10, 4 averaged), and the warning fires. */
  lemma AnomalyExampleDrop()
    ensures RollingMean([10.0, 10.0, 10.0, 4.0], 3, 1)[3] == Some(8.0)
    ensures Anomaly([10.0, 10.0, 10.0, 4.0])
  {
    var xs := [10.0, 10.0, 10.0, 4.0];
    TrailingThreeFromOne(xs);
    assert RollingMean(xs, 3, 1)[3] == Some((xs[1] + xs[2] + xs[3]) / 3.0);
  }

  /** Three days of 10 then a day of 12: no warning. */
  lemma AnomalyExampleRise()
    ensures !Anomaly([10.0, 10.0, 10.0, 12.0])
  {
    var xs := [10.0, 10.0, 10.0, 12.0];
    AnomalyBelowRecent(xs);
    assert xs[3] == 12.0 && xs[2] == 10.0 && xs[1] == 10.0 && |xs| == 4;
  }
}
