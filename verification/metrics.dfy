/** The date-range selection and the point metrics of dashboard.py. */
module Metrics {
  import opened Wrappers
  import opened Seqs
  import opened Deals

  /** `start_date 00:00 <= date_create <= end_date 00:00`: the upper bound is
      the first second of the end day, so a deal created later that day is
      outside the range. A deal whose date failed to parse never passes. */
  predicate InRange(d: Deal, startDay: int, endDay: int) {
    d.dateCreate.Some? && Midnight(startDay) <= d.dateCreate.value <= Midnight(endDay)
  }

  function InRangeOf(startDay: int, endDay: int): Deal -> bool {
    d => InRange(d, startDay, endDay)
  }

  /** The deals a view works on, and whether the range was empty so that
      the whole input is shown instead. */
  datatype Selection = Selection(deals: seq<Deal>, fellBack: bool)

  /** The range filter with its fallback to the unfiltered input. */
  function SelectRange(ds: seq<Deal>, startDay: int, endDay: int): (r: Selection)
    ensures r.fellBack <==> forall i :: 0 <= i < |ds| ==> !InRange(ds[i], startDay, endDay)
    ensures r.fellBack ==> r.deals == ds
    ensures !r.fellBack ==>
              && (forall i :: 0 <= i < |r.deals| ==> InRange(r.deals[i], startDay, endDay))
              && (forall x :: multiset(r.deals)[x] == if InRange(x, startDay, endDay) then multiset(ds)[x] else 0)
    ensures |r.deals| <= |ds|
    ensures |ds| > 0 ==> |r.deals| > 0
  {
    var f := Filter(ds, InRangeOf(startDay, endDay));
    if |f| == 0 then Selection(ds, true) else Selection(f, false)
  }

  /** Deals the range keeps never include one created after midnight of
      the end day. */
  lemma EndDayStopsAtMidnight(d: Deal, startDay: int, endDay: int)
    requires d.dateCreate.Some? && DayOf(d.dateCreate.value) == endDay
    requires d.dateCreate.value != Midnight(endDay)
    ensures !InRange(d, startDay, endDay)
  {
  }

  /** The won subset (`stage_id == 'WON'`), in order. */
  function WonSet(ds: seq<Deal>): (w: seq<Deal>)
    ensures |w| == Count(ds, IsWon)
    ensures forall i :: 0 <= i < |w| ==> IsWon(w[i])
    ensures forall x :: multiset(w)[x] == if IsWon(x) then multiset(ds)[x] else 0
  {
    Filter(ds, IsWon)
  }

  /** Won deals as a percentage of all deals, before rounding; 0 when there
      are no deals. */
  function Conversion(ds: seq<Deal>): (r: real)
    ensures 0.0 <= r <= 100.0
    ensures |ds| == 0 ==> r == 0.0
    ensures |ds| > 0 ==> r * |ds| as real == Count(ds, IsWon) as real * 100.0
    ensures r == 0.0 <==> Count(ds, IsWon) == 0
    ensures r == 100.0 <==> |ds| > 0 && Count(ds, IsWon) == |ds|
  {
    if |ds| == 0 then 0.0
    else
      var r := Count(ds, IsWon) as real * 100.0 / |ds| as real;
      PercentBounds(Count(ds, IsWon), |ds|);
      r
  }

  /** The conversion is the won deals as a percentage of all deals: times
      the number of deals it gives the number of won deals times 100. */
  lemma ConversionShare(ds: seq<Deal>)
    ensures |ds| > 0 ==> Conversion(ds) * |ds| as real == |WonSet(ds)| as real * 100.0
    ensures Conversion(ds) == 0.0 <==> |WonSet(ds)| == 0
    ensures Conversion(ds) == 100.0 <==> |ds| > 0 && |WonSet(ds)| == |ds|
  {
  }

  /** `part * 100 / whole` for `0 <= part <= whole`, `whole > 0`. */
  lemma PercentBounds(part: nat, whole: nat)
    requires 0 < whole && part <= whole
    ensures var r := part as real * 100.0 / whole as real;
      && 0.0 <= r <= 100.0
      && r * whole as real == part as real * 100.0
      && (r == 0.0 <==> part == 0)
      && (r == 100.0 <==> part == whole)
  {
    var w := whole as real;
    var p := part as real;
    var r := p * 100.0 / w;
    assert r * w == p * 100.0;
    PercentOfWhole(r, w, p);
  }

  /** A percentage `r` with `r * w == p * 100` and `0 <= p <= w` lies in
      [0, 100], is 0 exactly for `p == 0` and 100 exactly for `p == w`. */
  lemma PercentOfWhole(r: real, w: real, p: real)
    requires w > 0.0 && 0.0 <= p <= w && r * w == p * 100.0
    ensures 0.0 <= r <= 100.0
    ensures r == 0.0 <==> p == 0.0
    ensures r == 100.0 <==> p == w
  {
  }

  /** `part / whole` for `0 <= part <= whole`, `whole > 0`: a ratio in
      [0, 1] that gives `part` back when multiplied by `whole`. */
  lemma FractionBounds(part: nat, whole: nat)
    requires 0 < whole && part <= whole
    ensures 0.0 <= part as real / whole as real <= 1.0
    ensures (part as real / whole as real) * whole as real == part as real
  {
    var w := whole as real;
    var p := part as real;
    assert p / w * w == p;
    QuotientBounds(p / w, w, p);
  }

  /** A factor `q` with `q * w == p` and `0 <= p <= w` lies in [0, 1]. */
  lemma QuotientBounds(q: real, w: real, p: real)
    requires w > 0.0 && 0.0 <= p <= w && q * w == p
    ensures 0.0 <= q <= 1.0
  {
  }

  /** The non-null `opportunity` values, in order. */
  function KnownOpportunities(ds: seq<Deal>): (vs: seq<real>)
    ensures |vs| == Count(ds, HasOpportunity)
    ensures forall j :: 0 <= j < |vs| ==> exists i :: 0 <= i < |ds| && ds[i].opportunity == Some(vs[j])
  {
    if |ds| == 0 then []
    else
      var init := ds[..|ds| - 1];
      var last := ds[|ds| - 1];
      var vs := KnownOpportunities(init);
      assert forall i :: 0 <= i < |init| ==> ds[i] == init[i];
      if last.opportunity.Some? then vs + [last.opportunity.value] else vs
  }

  /** `opportunity.mean()` (nulls skipped), or 0 when every value is null. */
  function AverageOpportunity(ds: seq<Deal>): (r: real)
    ensures Count(ds, HasOpportunity) == 0 ==> r == 0.0
  {
    var vs := KnownOpportunities(ds);
    if |vs| == 0 then 0.0 else Mean(vs)
  }

  /** The average lies within the bounds of the known values. */
  lemma AverageOpportunityBounds(ds: seq<Deal>, lo: real, hi: real)
    requires forall i :: 0 <= i < |ds| && ds[i].opportunity.Some? ==> lo <= ds[i].opportunity.value <= hi
    requires Count(ds, HasOpportunity) > 0
    ensures lo <= AverageOpportunity(ds) <= hi
  {
    MeanBounds(KnownOpportunities(ds), lo, hi);
  }

  /** A deal without a value does not move the average. */
  lemma AverageIgnoresUnknown(ds: seq<Deal>, d: Deal)
    requires d.opportunity.None?
    ensures AverageOpportunity(ds + [d]) == AverageOpportunity(ds)
  {
    assert (ds + [d])[..|ds|] == ds;
  }

  /** The known values are the non-null `opportunity` values in the order of
      the deals: a deal that has one contributes it at the position given by
      the number of earlier deals that have one. */
  lemma {:induction false} KnownOpportunitiesInOrder(ds: seq<Deal>, i: int)
    requires 0 <= i < |ds| && HasOpportunity(ds[i])
    ensures Count(ds[..i], HasOpportunity) < |KnownOpportunities(ds)|
    ensures KnownOpportunities(ds)[Count(ds[..i], HasOpportunity)] == ds[i].opportunity.value
  {
    var init := ds[..|ds| - 1];
    if i < |ds| - 1 {
      assert init[i] == ds[i];
      KnownOpportunitiesInOrder(init, i);
      assert ds[..i] == init[..i];
    } else {
      assert ds[..i] == init;
    }
  }

  /** The total of the non-null `opportunity` values, taken deal by deal. */
  function OpportunityTotal(ds: seq<Deal>): real {
    if |ds| == 0 then 0.0
    else
      var last := ds[|ds| - 1];
      OpportunityTotal(ds[..|ds| - 1]) + if last.opportunity.Some? then last.opportunity.value else 0.0
  }

  lemma {:induction false} SumKnownOpportunities(ds: seq<Deal>)
    ensures Sum(KnownOpportunities(ds)) == OpportunityTotal(ds)
  {
    if |ds| > 0 {
      var init := ds[..|ds| - 1];
      var last := ds[|ds| - 1];
      SumKnownOpportunities(init);
      if last.opportunity.Some? {
        var vs := KnownOpportunities(init);
        assert (vs + [last.opportunity.value])[..|vs|] == vs;
      }
    }
  }

  /** `opportunity.mean()`: the total of the non-null values divided by how
      many there are. */
  lemma AverageOpportunityIsMean(ds: seq<Deal>)
    requires Count(ds, HasOpportunity) > 0
    ensures AverageOpportunity(ds) == OpportunityTotal(ds) / Count(ds, HasOpportunity) as real
  {
    SumKnownOpportunities(ds);
  }

  predicate HasBothDates(d: Deal) {
    d.dateCreate.Some? && d.closeDate.Some?
  }

  /** `(closedate - date_create).days`: whole days, rounded down. */
  function DaysToClose(d: Deal): int
    requires HasBothDates(d)
  {
    (d.closeDate.value - d.dateCreate.value) / SecondsPerDay
  }

  /** The day differences of the deals that have both dates, in order; the
      others give NaN, which the mean skips. */
  function CloseDurations(ds: seq<Deal>): (vs: seq<real>)
    ensures |vs| == Count(ds, HasBothDates)
    ensures forall j :: 0 <= j < |vs| ==>
              exists i :: 0 <= i < |ds| && HasBothDates(ds[i]) && vs[j] == DaysToClose(ds[i]) as real
  {
    if |ds| == 0 then []
    else
      var init := ds[..|ds| - 1];
      var last := ds[|ds| - 1];
      var vs := CloseDurations(init);
      assert forall i :: 0 <= i < |init| ==> ds[i] == init[i];
      if HasBothDates(last) then vs + [DaysToClose(last) as real] else vs
  }

  /** Mean time to close over the won deals: 0 when there are none, and
      `None` (pandas' NaN) when there are won deals but none has both
      dates. */
  function TimeToClose(won: seq<Deal>): (r: Option<real>)
    ensures |won| == 0 ==> r == Some(0.0)
    ensures r.None? <==> |won| > 0 && Count(won, HasBothDates) == 0
  {
    if |won| == 0 then Some(0.0)
    else
      var vs := CloseDurations(won);
      if |vs| == 0 then None else Some(Mean(vs))
  }

  /** Deals never closed before they were created take a non-negative time
      to close. */
  lemma TimeToCloseNonNegative(won: seq<Deal>)
    requires forall i :: 0 <= i < |won| && HasBothDates(won[i]) ==>
               won[i].dateCreate.value <= won[i].closeDate.value
    ensures TimeToClose(won).Some? ==> TimeToClose(won).value >= 0.0
  {
    var vs := CloseDurations(won);
    forall j | 0 <= j < |vs| ensures 0.0 <= vs[j] {
      var i :| 0 <= i < |won| && HasBothDates(won[i]) && vs[j] == DaysToClose(won[i]) as real;
    }
    if |won| > 0 && |vs| > 0 {
      MeanLowerBound(vs);
    }
  }

  /** The durations follow the order of the deals: a deal with both dates
      contributes its day difference at the position given by the number of
      earlier deals with both dates. */
  lemma {:induction false} CloseDurationsInOrder(ds: seq<Deal>, i: int)
    requires 0 <= i < |ds| && HasBothDates(ds[i])
    ensures Count(ds[..i], HasBothDates) < |CloseDurations(ds)|
    ensures CloseDurations(ds)[Count(ds[..i], HasBothDates)] == DaysToClose(ds[i]) as real
  {
    var init := ds[..|ds| - 1];
    if i < |ds| - 1 {
      assert init[i] == ds[i];
      CloseDurationsInOrder(init, i);
      assert ds[..i] == init[..i];
    } else {
      assert ds[..i] == init;
    }
  }

  /** The whole days to close, added up over the deals with both dates. */
  function CloseDaysTotal(ds: seq<Deal>): int {
    if |ds| == 0 then 0
    else
      var last := ds[|ds| - 1];
      CloseDaysTotal(ds[..|ds| - 1]) + if HasBothDates(last) then DaysToClose(last) else 0
  }

  lemma {:induction false} SumCloseDurations(ds: seq<Deal>)
    ensures Sum(CloseDurations(ds)) == CloseDaysTotal(ds) as real
  {
    if |ds| > 0 {
      var init := ds[..|ds| - 1];
      var last := ds[|ds| - 1];
      SumCloseDurations(init);
      if HasBothDates(last) {
        var vs := CloseDurations(init);
        assert (vs + [DaysToClose(last) as real])[..|vs|] == vs;
      }
    }
  }

  /** When some won deal has both dates, the time to close is the mean of
      the whole days over exactly those deals. */
  lemma TimeToCloseIsMeanDays(won: seq<Deal>)
    requires Count(won, HasBothDates) > 0
    ensures TimeToClose(won) == Some(CloseDaysTotal(won) as real / Count(won, HasBothDates) as real)
  {
    SumCloseDurations(won);
  }

  lemma MeanLowerBound(vs: seq<real>)
    requires |vs| > 0
    requires forall j :: 0 <= j < |vs| ==> 0.0 <= vs[j]
    ensures Mean(vs) >= 0.0
  {
    SumNonNegative(vs);
  }

  lemma {:induction false} SumNonNegative(vs: seq<real>)
    requires forall j :: 0 <= j < |vs| ==> 0.0 <= vs[j]
    ensures Sum(vs) >= 0.0
  {
    if |vs| > 0 {
      SumNonNegative(vs[..|vs| - 1]);
    }
  }

  /** The point metrics of a view. */
  datatype PointMetrics = PointMetrics(
    total: nat,
    chats: nat,
    meetings: nat,
    won: nat,
    conversion: real,
    averageDeal: real,
    timeToClose: Option<real>)

  /** The general view: the average deal is taken over the won deals. */
  function OverviewMetrics(ds: seq<Deal>): (m: PointMetrics)
    ensures m.total == |ds|
    ensures m.chats == Count(ds, IsChat) <= m.total
    ensures m.meetings == Count(ds, IsMeeting) <= m.total
    ensures m.won == |WonSet(ds)| <= m.total
    ensures m.conversion == Conversion(ds)
    ensures 0.0 <= m.conversion <= 100.0
    ensures m.total == 0 ==> m.conversion == 0.0
    ensures m.conversion == 0.0 <==> m.won == 0
    ensures m.conversion == 100.0 <==> m.total > 0 && m.won == m.total
    ensures m.averageDeal == AverageOpportunity(WonSet(ds))
    ensures m.timeToClose == TimeToClose(WonSet(ds))
  {
    var won := WonSet(ds);
    PointMetrics(|ds|, Count(ds, IsChat), Count(ds, IsMeeting), |won|, Conversion(ds),
                 AverageOpportunity(won), TimeToClose(won))
  }

  /** The per-manager view: the average deal is taken over all of the
      manager's selected deals, won or not. The page itself shows no
      meetings or won count; the record carries them as the general view
      does. */
  function ManagerMetrics(ds: seq<Deal>): (m: PointMetrics)
    ensures m.total == |ds|
    ensures m.chats == Count(ds, IsChat) <= m.total
    ensures m.meetings == Count(ds, IsMeeting) <= m.total
    ensures m.won == |WonSet(ds)| <= m.total
    ensures m.conversion == Conversion(ds)
    ensures 0.0 <= m.conversion <= 100.0
    ensures m.total == 0 ==> m.conversion == 0.0
    ensures m.conversion == 0.0 <==> m.won == 0
    ensures m.conversion == 100.0 <==> m.total > 0 && m.won == m.total
    ensures m.averageDeal == AverageOpportunity(ds)
    ensures m.timeToClose == TimeToClose(WonSet(ds))
  {
    var won := WonSet(ds);
    PointMetrics(|ds|, Count(ds, IsChat), Count(ds, IsMeeting), |won|, Conversion(ds),
                 AverageOpportunity(ds), TimeToClose(won))
  }
}
