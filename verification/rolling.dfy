/** `Series.rolling(window, min_periods).mean()` over exact reals: the value
    at position i is the mean of the (up to `window`) observations ending at
    i, and is missing while fewer than `min_periods` observations exist. */
module Rolling {
  import opened Wrappers
  import opened Seqs

  /** Index of the first observation of the window ending at `i`. */
  function WindowStart(i: nat, window: nat): nat {
    if i + 1 >= window then i + 1 - window else 0
  }

  /** The rolling mean at one position. */
  function MeanAt(xs: seq<real>, i: nat, window: nat, minPeriods: nat): Option<real>
    requires i < |xs| && 1 <= window
  {
    var lo := WindowStart(i, window);
    if i + 1 - lo >= minPeriods then Some(Mean(xs[lo..i + 1])) else None
  }

  /** The reference definition of the rolling mean, position by position. */
  function RollingMean(xs: seq<real>, window: nat, minPeriods: nat): (r: seq<Option<real>>)
    requires 1 <= window && minPeriods <= window
    ensures |r| == |xs|
  {
    seq(|xs|, i requires 0 <= i < |xs| => MeanAt(xs, i, window, minPeriods))
  }

  /** Extending a slice by one element on the right adds that element. */
  lemma SumSnoc(xs: seq<real>, a: nat, b: nat)
    requires a <= b < |xs|
    ensures Sum(xs[a..b + 1]) == Sum(xs[a..b]) + xs[b]
  {
    assert xs[a..b + 1][..b - a] == xs[a..b];
  }

  /** Dropping the first element of a non-empty slice subtracts it. */
  lemma SumDropFirst(xs: seq<real>, a: nat, b: nat)
    requires a < b <= |xs|
    ensures Sum(xs[a + 1..b]) == Sum(xs[a..b]) - xs[a]
  {
    SumFront(xs[a..b]);
    assert xs[a..b][1..] == xs[a + 1..b];
  }

  /** The rolling mean computed online, as pandas does: one running window
      sum, adding the observation that enters and subtracting the one that
      leaves. */
  method RollingMeanOnline(xs: seq<real>, window: nat, minPeriods: nat) returns (r: seq<Option<real>>)
    requires 1 <= window && minPeriods <= window
    ensures r == RollingMean(xs, window, minPeriods)
  {
    r := [];
    var sum := 0.0;
    var i := 0;
    while i < |xs|
      invariant 0 <= i <= |xs|
      invariant |r| == i
      invariant forall k :: 0 <= k < i ==> r[k] == MeanAt(xs, k, window, minPeriods)
      invariant sum == Sum(xs[LastWindow(i, window)..i])
    {
      WindowStep(xs, i, window);
      sum := sum + xs[i];
      if i >= window {
        sum := sum - xs[i - window];
      }
      var n := i + 1 - WindowStart(i, window);
      var m := if n >= minPeriods then Some(sum / n as real) else None;
      assert m == MeanAt(xs, i, window, minPeriods);
      r := r + [m];
      i := i + 1;
    }
  }

  /** Index of the first of the last `window` observations among the first
      `n`; the window ending at `i` starts at `LastWindow(i + 1, window)`. */
  function LastWindow(n: nat, window: nat): nat {
    if n >= window then n - window else 0
  }

  /** One step of the running window sum: the window ending at `i` is the
      one ending at `i - 1` plus `xs[i]`, less `xs[i - window]` once the
      window is full. */
  lemma WindowStep(xs: seq<real>, i: nat, window: nat)
    requires i < |xs| && 1 <= window
    ensures WindowStart(i, window) == LastWindow(i + 1, window)
    ensures Sum(xs[LastWindow(i + 1, window)..i + 1])
         == Sum(xs[LastWindow(i, window)..i]) + xs[i]
            - (if i >= window then xs[i - window] else 0.0)
  {
    SumSnoc(xs, LastWindow(i, window), i);
    if i >= window {
      SumDropFirst(xs, i - window, i + 1);
    }
  }

  /** A full three-wide window is the mean of its three observations. */
  lemma SumOfThree(xs: seq<real>, i: nat, minPeriods: nat)
    requires 2 <= i < |xs| && minPeriods <= 3
    ensures MeanAt(xs, i, 3, minPeriods) == Some((xs[i - 2] + xs[i - 1] + xs[i]) / 3.0)
  {
    SumSnoc(xs, i - 2, i);
    SumSnoc(xs, i - 2, i - 1);
    SumSnoc(xs, i - 2, i - 2);
    assert WindowStart(i, 3) == i - 2;
    assert |xs[i - 2..i + 1]| == 3;
    assert Sum(xs[i - 2..i + 1]) == xs[i - 2] + xs[i - 1] + xs[i];
  }

  /** `rolling(window=3).mean()`: missing for the first two positions, then
      the mean of the current and two preceding observations. */
  lemma TrailingThree(xs: seq<real>)
    ensures var r := RollingMean(xs, 3, 3);
            forall i :: 0 <= i < |xs| ==>
              r[i] == if i < 2 then None else Some((xs[i - 2] + xs[i - 1] + xs[i]) / 3.0)
  {
    forall i | 2 <= i < |xs|
      ensures RollingMean(xs, 3, 3)[i] == Some((xs[i - 2] + xs[i - 1] + xs[i]) / 3.0)
    {
      SumOfThree(xs, i, 3);
    }
  }

  /** `rolling(window=3, min_periods=1).mean()`: always present; the first
      observation itself, then the mean of the first two, then the mean of
      the current and two preceding observations. The window includes the
      current observation. */
  lemma TrailingThreeFromOne(xs: seq<real>)
    ensures forall i :: 0 <= i < |xs| ==>
              RollingMean(xs, 3, 1)[i] == Some(if i == 0 then xs[0]
                                               else if i == 1 then (xs[0] + xs[1]) / 2.0
                                               else (xs[i - 2] + xs[i - 1] + xs[i]) / 3.0)
  {
    forall i | 0 <= i < |xs|
      ensures RollingMean(xs, 3, 1)[i] == Some(if i == 0 then xs[0]
                                             else if i == 1 then (xs[0] + xs[1]) / 2.0
                                             else (xs[i - 2] + xs[i - 1] + xs[i]) / 3.0)
    {
      if i == 0 {
        SumSnoc(xs, 0, 0);
        assert WindowStart(0, 3) == 0;
        assert Sum(xs[0..1]) == xs[0];
      } else if i == 1 {
        SumSnoc(xs, 0, 1);
        SumSnoc(xs, 0, 0);
        assert WindowStart(1, 3) == 0;
        assert Sum(xs[0..2]) == xs[0] + xs[1];
      } else {
        SumOfThree(xs, i, 1);
      }
    }
  }

  /** Every present rolling mean lies within the bounds of the observations. */
  lemma RollingBounds(xs: seq<real>, window: nat, minPeriods: nat, lo: real, hi: real)
    requires 1 <= window && minPeriods <= window
    requires forall i :: 0 <= i < |xs| ==> lo <= xs[i] <= hi
    ensures var r := RollingMean(xs, window, minPeriods);
            forall i :: 0 <= i < |xs| && r[i].Some? ==> lo <= r[i].value <= hi
  {
    var r := RollingMean(xs, window, minPeriods);
    forall i | 0 <= i < |xs| && r[i].Some?
      ensures lo <= r[i].value <= hi
    {
      var s := WindowStart(i, window);
      var w := xs[s..i + 1];
      assert forall k :: 0 <= k < |w| ==> w[k] == xs[s + k];
      MeanBounds(w, lo, hi);
    }
  }

  /** The three-bucket trend of counts 5, 7, 9, 6: nothing, nothing, 7, 22/3. */
  lemma TrailingThreeExample()
    ensures RollingMean([5.0, 7.0, 9.0, 6.0], 3, 3) == [None, None, Some(7.0), Some(22.0 / 3.0)]
  {
    var xs := [5.0, 7.0, 9.0, 6.0];
    TrailingThree(xs);
    var r := RollingMean(xs, 3, 3);
    assert r[0] == None && r[1] == None;
    assert r[2] == if 2 < 2 then None else Some((xs[0] + xs[1] + xs[2]) / 3.0);
    assert r[3] == if 3 < 2 then None else Some((xs[1] + xs[2] + xs[3]) / 3.0);
  }
}
