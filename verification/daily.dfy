/** Per-day buckets: `groupby(date_create.dt.date)` with `size()` (and, in
    the manager view, the number of won deals per day). pandas drops rows
    whose date failed to parse and sorts the groups by date; days without
    deals get no bucket. */
module Daily {
  import opened Seqs
  import opened Deals

  /** One group: its day, how many deals were created that day and how many
      of them are won. */
  datatype Bucket = Bucket(day: int, total: nat, won: nat)

  /** Days strictly increase along the series. */
  predicate Increasing(bs: seq<Bucket>) {
    forall i, j :: 0 <= i < j < |bs| ==> bs[i].day < bs[j].day
  }

  /** Every bucket holds at least one deal, and no more won deals than deals. */
  predicate WellFormed(bs: seq<Bucket>) {
    forall i :: 0 <= i < |bs| ==> 1 <= bs[i].total && bs[i].won <= bs[i].total
  }

  /** The days that have a bucket. */
  function Days(bs: seq<Bucket>): set<int> {
    if |bs| == 0 then {} else {bs[0].day} + Days(bs[1..])
  }

  /** A day has a bucket exactly when some bucket carries it. */
  lemma {:induction false} DaysMembers(bs: seq<Bucket>)
    ensures forall d :: d in Days(bs) <==> exists i :: 0 <= i < |bs| && bs[i].day == d
  {
    if |bs| > 0 {
      DaysMembers(bs[1..]);
      forall d | d in Days(bs) ensures exists i :: 0 <= i < |bs| && bs[i].day == d {
        if d != bs[0].day {
          assert d in Days(bs[1..]);
          var k :| 0 <= k < |bs[1..]| && bs[1..][k].day == d;
          assert bs[k + 1].day == d;
        }
      }
      forall d, i | 0 <= i < |bs| && bs[i].day == d ensures d in Days(bs) {
        if i > 0 {
          assert bs[1..][i - 1].day == d;
        }
      }
    }
  }

  /** Deals counted on `day` across the series. */
  function TotalOn(bs: seq<Bucket>, day: int): nat {
    if |bs| == 0 then 0
    else (if bs[0].day == day then bs[0].total else 0) + TotalOn(bs[1..], day)
  }

  /** Won deals counted on `day` across the series. */
  function WonOn(bs: seq<Bucket>, day: int): nat {
    if |bs| == 0 then 0
    else (if bs[0].day == day then bs[0].won else 0) + WonOn(bs[1..], day)
  }

  function SumTotals(bs: seq<Bucket>): nat {
    if |bs| == 0 then 0 else bs[0].total + SumTotals(bs[1..])
  }

  /** Count one more deal, created on `day`, into the series. */
  function Add(bs: seq<Bucket>, day: int, won: bool): (r: seq<Bucket>)
    requires Increasing(bs) && WellFormed(bs)
    ensures Increasing(r) && WellFormed(r)
    ensures |r| > 0 && r[0].day == if |bs| == 0 || day < bs[0].day then day else bs[0].day
  {
    var w := if won then 1 else 0;
    if |bs| == 0 then
      [Bucket(day, 1, w)]
    else if day < bs[0].day then
      [Bucket(day, 1, w)] + bs
    else if day == bs[0].day then
      [Bucket(day, bs[0].total + 1, bs[0].won + w)] + bs[1..]
    else
      var rest := Add(bs[1..], day, won);
      assert forall j :: 0 <= j < |rest| ==> rest[0].day <= rest[j].day;
      [bs[0]] + rest
  }

  /** Adding a deal opens a bucket for its day if there was none, and no
      other bucket. */
  lemma {:induction false} AddDays(bs: seq<Bucket>, day: int, won: bool)
    requires Increasing(bs) && WellFormed(bs)
    ensures Days(Add(bs, day, won)) == Days(bs) + {day}
  {
    var r := Add(bs, day, won);
    if |bs| == 0 {
      assert r[1..] == [];
    } else if day < bs[0].day {
      assert r[1..] == bs;
    } else if day == bs[0].day {
      assert r[1..] == bs[1..];
    } else {
      AddDays(bs[1..], day, won);
      assert r[1..] == Add(bs[1..], day, won);
    }
  }

  /** Adding a deal created on `day` raises that day's counts by one (and
      its won count by one if the deal is won), and no other day's. */
  lemma {:induction false} AddCounts(bs: seq<Bucket>, day: int, won: bool)
    requires Increasing(bs) && WellFormed(bs)
    ensures forall d :: TotalOn(Add(bs, day, won), d) == TotalOn(bs, d) + (if d == day then 1 else 0)
    ensures forall d :: WonOn(Add(bs, day, won), d) == WonOn(bs, d) + (if d == day && won then 1 else 0)
    ensures SumTotals(Add(bs, day, won)) == SumTotals(bs) + 1
  {
    var r := Add(bs, day, won);
    if |bs| == 0 {
      assert r[1..] == [];
    } else if day < bs[0].day {
      assert r[1..] == bs;
    } else if day == bs[0].day {
      assert r[1..] == bs[1..];
    } else {
      AddCounts(bs[1..], day, won);
      assert r[1..] == Add(bs[1..], day, won);
    }
  }

  /** A bucketed day has deals in it, and a day without a bucket has none. */
  lemma {:induction false} DaysHaveDeals(bs: seq<Bucket>, day: int)
    requires WellFormed(bs)
    ensures day in Days(bs) <==> TotalOn(bs, day) > 0
  {
    if |bs| > 0 {
      DaysHaveDeals(bs[1..], day);
    }
  }

  /** In an increasing series the count on a bucket's day is that bucket's. */
  lemma {:induction false} BucketCounts(bs: seq<Bucket>, i: int)
    requires Increasing(bs) && WellFormed(bs)
    requires 0 <= i < |bs|
    ensures TotalOn(bs, bs[i].day) == bs[i].total
    ensures WonOn(bs, bs[i].day) == bs[i].won
  {
    if i == 0 {
      NoBucketNoCount(bs[1..], bs[0].day);
    } else {
      BucketCounts(bs[1..], i - 1);
    }
  }

  /** Past the first bucket, nothing is counted on the first bucket's day. */
  lemma {:induction false} NoBucketNoCount(bs: seq<Bucket>, day: int)
    requires forall i :: 0 <= i < |bs| ==> day < bs[i].day
    ensures TotalOn(bs, day) == 0 && WonOn(bs, day) == 0
  {
    if |bs| > 0 {
      NoBucketNoCount(bs[1..], day);
    }
  }

  /** The per-day series of a deal sequence, built one deal at a time in
      row order. */
  function DailyBuckets(ds: seq<Deal>): (bs: seq<Bucket>)
    ensures Increasing(bs) && WellFormed(bs)
  {
    if |ds| == 0 then []
    else
      var bs := DailyBuckets(ds[..|ds| - 1]);
      var last := ds[|ds| - 1];
      if last.dateCreate.Some? then Add(bs, DayOf(last.dateCreate.value), IsWon(last)) else bs
  }

  /** What the series counts: per day, the deals created that day and the
      won ones among them; in all, every deal with a parseable creation
      date; and a bucket exactly for the days that have a deal. */
  lemma {:induction false} DailyBucketsCount(ds: seq<Deal>)
    ensures var bs := DailyBuckets(ds);
            && (forall d :: TotalOn(bs, d) == Count(ds, OnDay(d)))
            && (forall d :: WonOn(bs, d) == Count(ds, WonOnDay(d)))
            && SumTotals(bs) == Count(ds, HasCreateDate)
            && (forall d :: d in Days(bs) <==> Count(ds, OnDay(d)) > 0)
  {
    var bs := DailyBuckets(ds);
    if |ds| > 0 {
      var init := ds[..|ds| - 1];
      var last := ds[|ds| - 1];
      DailyBucketsCount(init);
      if last.dateCreate.Some? {
        AddCounts(DailyBuckets(init), DayOf(last.dateCreate.value), IsWon(last));
      }
    }
    forall d ensures d in Days(bs) <==> Count(ds, OnDay(d)) > 0 {
      DaysHaveDeals(bs, d);
    }
  }

  /** Bucket by bucket: its counts are the deals created on its day and the
      won ones among them. */
  lemma DailyBucketsContents(ds: seq<Deal>)
    ensures var bs := DailyBuckets(ds);
            forall i :: 0 <= i < |bs| ==>
              && bs[i].total == Count(ds, OnDay(bs[i].day))
              && bs[i].won == Count(ds, WonOnDay(bs[i].day))
  {
    var bs := DailyBuckets(ds);
    DailyBucketsCount(ds);
    forall i | 0 <= i < |bs|
      ensures bs[i].total == Count(ds, OnDay(bs[i].day))
      ensures bs[i].won == Count(ds, WonOnDay(bs[i].day))
    {
      BucketCounts(bs, i);
    }
  }
}
