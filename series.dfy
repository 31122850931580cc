/** The two pandas column transforms applied to the closing prices:
    `Series.pct_change()` and `Series.rolling(window).mean()`. A column is a
    sequence with one entry per bar; `None` marks a NaN entry. */
module Series {
  import opened Options
  import opened Stats

  /** Every close that pct_change divides by is non-zero: all but the last. */
  predicate NoZeroDivisor(close: seq<real>)
  {
    forall k :: 0 <= k < |close| - 1 ==> close[k] != 0.0
  }

  /** `close.pct_change()`: entry i is the relative change from bar i - 1 to
      bar i; the first entry has no predecessor and is NaN. */
  function PctChange(close: seq<real>): (r: seq<Option<real>>)
    requires NoZeroDivisor(close)
    ensures |r| == |close|
    ensures forall i :: 0 <= i < |r| ==> (r[i].None? <==> i == 0)
  {
    seq(|close|, i requires 0 <= i < |close| =>
      if i == 0 then None else Some((close[i] - close[i - 1]) / close[i - 1]))
  }

  /** The daily returns as plain numbers: one per pair of consecutive bars. */
  function DailyReturns(close: seq<real>): (r: seq<real>)
    requires NoZeroDivisor(close)
    ensures |r| == if close == [] then 0 else |close| - 1
  {
    if close == [] then []
    else seq(|close| - 1, i requires 0 <= i < |close| - 1 => (close[i + 1] - close[i]) / close[i])
  }

  /** Each daily return times the close it is relative to is the change
      from that close to the next. */
  lemma ReturnsAreRelativeChanges(close: seq<real>, i: nat)
    requires NoZeroDivisor(close) && i < |close| - 1
    ensures Product(DailyReturns(close)[i], close[i]) == close[i + 1] - close[i]
  {
    var d := close[i + 1] - close[i];
    assert DailyReturns(close)[i] == d / close[i];
    assert (d / close[i]) * close[i] == d;
  }

  /** The defined entries of the pct_change column are exactly the N - 1
      daily returns, in order: entry 0 is the only NaN. */
  lemma PresentPctChange(close: seq<real>)
    requires NoZeroDivisor(close)
    ensures Present(PctChange(close)) == DailyReturns(close)
  {
    var col := PctChange(close);
    if close != [] {
      var rs := DailyReturns(close);
      var tail := col[1..];
      forall k | 0 <= k < |tail|
        ensures tail[k] == Some(rs[k])
      {
        assert tail[k] == col[k + 1];
      }
      PresentAllSome(tail, rs);
      assert Present(col) == Present(tail);
    }
  }

  /** `close.rolling(window).mean()`: entry i is the mean of the `window`
      closes ending at bar i, NaN while fewer than `window` bars exist. */
  function Rolling(close: seq<real>, window: nat): (r: seq<Option<real>>)
    requires window > 0
    ensures |r| == |close|
    ensures forall i :: 0 <= i < |r| ==> (r[i].None? <==> i + 1 < window)
  {
    seq(|close|, i requires 0 <= i < |close| =>
      if i + 1 < window then None else Some(Mean(close[i + 1 - window .. i + 1])))
  }

  /** The last entry of the rolling column, the only one the metrics keep:
      NaN exactly when the history is shorter than the window, otherwise the
      mean of the last `window` closes. */
  function LastMovingAverage(close: seq<real>, window: nat): (r: Option<real>)
    requires window > 0 && close != []
    ensures r.None? <==> |close| < window
    ensures r.Some? ==> r.value == Mean(close[|close| - window..])
  {
    if |close| >= window then
      assert close[|close| - window .. |close|] == close[|close| - window..];
      Rolling(close, window)[|close| - 1]
    else
      Rolling(close, window)[|close| - 1]
  }

  /** Every close is higher than the one before. */
  predicate Rising(close: seq<real>)
  {
    forall k :: 0 <= k < |close| - 1 ==> close[k] < close[k + 1]
  }

  lemma {:induction false} RisingOrdered(close: seq<real>, i: nat, j: nat)
    requires Rising(close) && i < j < |close|
    ensures close[i] < close[j]
  {
    if i < j - 1 {
      RisingOrdered(close, i, j - 1);
    }
  }

  /** On a rising series the mean of the last 50 closes exceeds the mean of
      the last 200. */
  lemma RisingWindows(close: seq<real>)
    requires Rising(close) && |close| >= 200
    ensures Mean(close[|close| - 50..]) > Mean(close[|close| - 200..])
  {
    var n := |close|;
    var older, recent := close[n - 200 .. n - 50], close[n - 50..];
    assert close[n - 200..] == older + recent;
    SumConcat(older, recent);
    OlderBelowPivot(close);
    RecentAtLeastPivot(close);
    var low, high := Sum(older), Sum(recent);
    assert Mean(close[n - 200..]) == (low + high) / 200.0;
    assert Mean(recent) == high / 50.0;
  }

  /** The 150 closes before the last 50 sum to less than 150 times the
      first of the last 50. */
  lemma OlderBelowPivot(close: seq<real>)
    requires Rising(close) && |close| >= 200
    ensures Sum(close[|close| - 200 .. |close| - 50]) < 150.0 * close[|close| - 50]
  {
    var n := |close|;
    var older, pivot := close[n - 200 .. n - 50], close[n - 50];
    forall k | 0 <= k < |older|
      ensures older[k] < pivot
    {
      RisingOrdered(close, n - 200 + k, n - 50);
    }
    SumBelow(older, pivot);
  }

  /** The last 50 closes sum to at least 50 times the first of them. */
  lemma RecentAtLeastPivot(close: seq<real>)
    requires Rising(close) && |close| >= 50
    ensures Sum(close[|close| - 50..]) >= 50.0 * close[|close| - 50]
  {
    var n := |close|;
    var recent, pivot := close[n - 50..], close[n - 50];
    forall k | 0 <= k < |recent|
      ensures recent[k] >= pivot
    {
      if k > 0 {
        RisingOrdered(close, n - 50, n - 50 + k);
      }
    }
    SumAtLeast(recent, pivot);
  }

  /** A close series whose daily returns are all zero is constant. */
  lemma {:induction false} FlatReturnsFlatCloses(close: seq<real>, k: nat)
    requires NoZeroDivisor(close) && k < |close|
    requires forall i :: 0 <= i < |DailyReturns(close)| ==> DailyReturns(close)[i] == 0.0
    ensures close[k] == close[0]
  {
    if k > 0 {
      FlatReturnsFlatCloses(close, k - 1);
      var prev := close[k - 1];
      assert DailyReturns(close)[k - 1] == (close[k] - prev) / prev;
      QuotientZero(close[k] - prev, prev);
    }
  }

  /** A constant non-zero close series has only zero daily returns. */
  lemma FlatClosesFlatReturns(close: seq<real>)
    requires Constant(close) && (close != [] ==> close[0] != 0.0)
    ensures NoZeroDivisor(close)
    ensures forall i :: 0 <= i < |DailyReturns(close)| ==> DailyReturns(close)[i] == 0.0
  {
    var rs := DailyReturns(close);
    forall i | 0 <= i < |rs|
      ensures rs[i] == 0.0
    {
      assert close[i + 1] == close[i];
    }
  }

  lemma QuotientZero(x: real, d: real)
    requires d != 0.0 && x / d == 0.0
    ensures x == 0.0
  {
    assert x == (x / d) * d;
  }
}
