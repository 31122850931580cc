/** `calculate_metrics` for one ticker, as a function of its closing prices:
    daily returns, their mean and annualisation, volatility, Sharpe ratio,
    the last 50- and 200-bar moving averages, the current price and the
    trend. A float NaN is `None`; the Sharpe ratio's quotient is a `Ratio`
    so that a zero volatility is an explicit outcome. */
module Metrics {
  import opened Options
  import opened Stats
  import opened Series

  /** Trading days per year used to annualise the daily figures. */
  const TradingDays: real := 252.0
  /** Windows of the short and the long moving average. */
  const ShortWindow: nat := 50
  const LongWindow: nat := 200

  /** Outcome of a float quotient whose denominator is never -0.0: a finite
      value, an infinity (non-zero numerator over zero) or NaN. */
  datatype Ratio = Finite(value: real) | PlusInfinity | MinusInfinity | NotANumber

  /** Float division `num / den`, NaN operands propagating. */
  function Divide(num: Option<real>, den: Option<real>): (q: Ratio)
    ensures q.Finite? <==> num.Some? && den.Some? && den.value != 0.0
    ensures q.Finite? ==> Product(q.value, den.value) == num.value
    ensures q.NotANumber? <==> num.None? || den.None? || (num.value == 0.0 && den.value == 0.0)
    ensures q.PlusInfinity? <==> num.Some? && den == Some(0.0) && num.value > 0.0
    ensures q.MinusInfinity? <==> num.Some? && den == Some(0.0) && num.value < 0.0
  {
    if num.None? || den.None? then NotANumber
    else if den.value != 0.0 then Finite(num.value / den.value)
    else if num.value > 0.0 then PlusInfinity
    else if num.value < 0.0 then MinusInfinity
    else NotANumber
  }

  datatype Trend = Bullish | Bearish

  /** Python's `a > b` on floats: false as soon as either side is NaN. */
  predicate Greater(a: Option<real>, b: Option<real>)
  {
    a.Some? && b.Some? && a.value > b.value
  }

  /** `"Bullish" if ma50 > ma200 else "Bearish"`: a NaN on either side is
      Bearish, two numbers compare as numbers. */
  function TrendOf(ma50: Option<real>, ma200: Option<real>): (t: Trend)
    ensures ma50.None? || ma200.None? ==> t == Bearish
    ensures ma50.Some? && ma200.Some? ==> (t == Bullish <==> ma50.value > ma200.value)
  {
    if Greater(ma50, ma200) then Bullish else Bearish
  }

  /** The metrics record of one ticker. */
  datatype Metrics = Metrics(
    avgDailyReturn: Option<real>,
    annualizedReturn: Option<real>,
    volatility: Option<real>,
    sharpeRatio: Ratio,
    currentPrice: real,
    ma50: Option<real>,
    ma200: Option<real>,
    trend: Trend)

  /** `volatility` is the annualised volatility `std() * sqrt(252)` of the
      daily returns: the non-negative root of 252 times their sample variance.
      It only matters once there are two returns, i.e. three closes. */
  predicate IsVolatility(close: seq<real>, volatility: real)
    requires NoZeroDivisor(close)
  {
    |close| >= 3 ==>
      volatility >= 0.0 && Square(volatility) == TradingDays * SampleVariance(DailyReturns(close))
  }

  /** Float multiplication by a constant; NaN stays NaN. */
  function Scale(x: Option<real>, k: real): Option<real>
  {
    if x.Some? then Some(x.value * k) else None
  }

  /** `Daily_Return.mean()`: NaN for fewer than two closes, otherwise the
      mean of the N - 1 daily returns. */
  function AvgDailyReturn(close: seq<real>): (r: Option<real>)
    requires NoZeroDivisor(close)
    ensures r.Some? <==> |close| >= 2
    ensures r.Some? ==> r.value == Mean(DailyReturns(close))
  {
    PresentPctChange(close);
    NanMean(PctChange(close))
  }

  /** `Daily_Return.std() * sqrt(252)`: NaN for fewer than three closes (the
      sample deviation of a single return is NaN), otherwise the root. */
  function AnnualVolatility(close: seq<real>, volatility: real): (r: Option<real>)
    requires NoZeroDivisor(close)
    requires IsVolatility(close, volatility)
    ensures r == if |close| >= 3 then Some(volatility) else None
    ensures r.Some? ==>
      NanVariance(PctChange(close)).Some? && r.value >= 0.0 &&
      Square(r.value) == TradingDays * NanVariance(PctChange(close)).value
  {
    PresentPctChange(close);
    if NanVariance(PctChange(close)).Some? then Some(volatility) else None
  }

  /** `avg_daily_return * 252`: NaN for fewer than two closes, otherwise
      252 times the mean daily return. */
  function AnnualizedReturn(close: seq<real>): (r: Option<real>)
    requires NoZeroDivisor(close)
    ensures r.Some? <==> |close| >= 2
    ensures r.Some? ==> r.value == Mean(DailyReturns(close)) * TradingDays
  {
    Scale(AvgDailyReturn(close), TradingDays)
  }

  /** `annualized_return / volatility`: finite only for a positive volatility
      over at least three closes; a zero volatility gives an infinity signed
      like the mean return, or NaN when that mean is zero too. */
  function SharpeRatio(close: seq<real>, volatility: real): (s: Ratio)
    requires NoZeroDivisor(close)
    requires IsVolatility(close, volatility)
    ensures s.Finite? <==> |close| >= 3 && volatility > 0.0
    ensures s.Finite? ==> Product(s.value, volatility) == Mean(DailyReturns(close)) * TradingDays
    ensures s.NotANumber? <==>
      |close| < 3 || (volatility == 0.0 && Mean(DailyReturns(close)) == 0.0)
    ensures s.PlusInfinity? <==>
      |close| >= 3 && volatility == 0.0 && Mean(DailyReturns(close)) > 0.0
    ensures s.MinusInfinity? <==>
      |close| >= 3 && volatility == 0.0 && Mean(DailyReturns(close)) < 0.0
  {
    Divide(AnnualizedReturn(close), AnnualVolatility(close, volatility))
  }

  /** `"Bullish" if ma50 > ma200 else "Bearish"` on the last moving averages:
      Bullish exactly when both exist and the short one is the larger. */
  function TrendOfCloses(close: seq<real>): (t: Trend)
    requires close != []
    ensures t == Bullish <==>
      |close| >= LongWindow && Mean(close[|close| - ShortWindow..]) > Mean(close[|close| - LongWindow..])
  {
    TrendOf(LastMovingAverage(close, ShortWindow), LastMovingAverage(close, LongWindow))
  }

  /** The metrics of a close series: "no data" (`None`) for an empty series,
      otherwise the record `calculate_metrics` builds. The square root that
      the volatility needs is supplied as `volatility`. */
  function ComputeMetrics(close: seq<real>, volatility: real): (m: Option<Metrics>)
    requires NoZeroDivisor(close)
    requires IsVolatility(close, volatility)
    ensures m.None? <==> close == []
    ensures m.Some? ==> m.value.currentPrice == close[|close| - 1]
    ensures m.Some? ==> (m.value.avgDailyReturn.Some? <==> |close| >= 2)
    ensures m.Some? && |close| >= 2 ==> m.value.avgDailyReturn == Some(Mean(DailyReturns(close)))
    ensures m.Some? ==> (m.value.annualizedReturn.Some? <==> |close| >= 2)
    ensures m.Some? && |close| >= 2 ==>
      m.value.annualizedReturn.value == m.value.avgDailyReturn.value * TradingDays
    ensures m.Some? ==> m.value.volatility == if |close| >= 3 then Some(volatility) else None
    ensures m.Some? ==> m.value.sharpeRatio == SharpeRatio(close, volatility)
    ensures m.Some? ==> (m.value.ma50.None? <==> |close| < ShortWindow)
    ensures m.Some? && |close| >= ShortWindow ==>
      m.value.ma50 == Some(Mean(close[|close| - ShortWindow..]))
    ensures m.Some? ==> (m.value.ma200.None? <==> |close| < LongWindow)
    ensures m.Some? && |close| >= LongWindow ==>
      m.value.ma200 == Some(Mean(close[|close| - LongWindow..]))
    ensures m.Some? ==> m.value.trend == TrendOfCloses(close)
  {
    if close == [] then None
    else
      var ma50 := LastMovingAverage(close, ShortWindow);
      var ma200 := LastMovingAverage(close, LongWindow);
      Some(Metrics(AvgDailyReturn(close), AnnualizedReturn(close), AnnualVolatility(close, volatility),
                   SharpeRatio(close, volatility), close[|close| - 1],
                   ma50, ma200, TrendOf(ma50, ma200)))
  }

  /** A square root of zero is zero. */
  lemma RootOfZero(v: real)
    requires Square(v) == 0.0
    ensures v == 0.0
  {
    if v != 0.0 {
      SquarePositive(v);
    }
  }

  /** A flat price series (at least three bars, all closes equal and
      non-zero): every daily return is zero, the volatility is zero, the
      Sharpe ratio is 0/0 = NaN and the trend is Bearish. */
  lemma FlatSeries(close: seq<real>, volatility: real)
    requires |close| >= 3 && Constant(close) && close[0] != 0.0
    requires IsVolatility(close, volatility)
    ensures NoZeroDivisor(close)
    ensures forall i :: 0 <= i < |DailyReturns(close)| ==> DailyReturns(close)[i] == 0.0
    ensures AnnualVolatility(close, volatility) == Some(0.0)
    ensures AnnualizedReturn(close) == Some(0.0)
    ensures SharpeRatio(close, volatility) == NotANumber
    ensures TrendOfCloses(close) == Bearish
  {
    var rs := DailyReturns(close);
    FlatClosesFlatReturns(close);
    VarianceZeroIffConstant(rs);
    RootOfZero(volatility);
    MeanOfConstant(rs, 0.0);
    FlatIsBearish(close);
  }

  /** Equal closes give equal moving averages, hence a Bearish trend. */
  lemma FlatIsBearish(close: seq<real>)
    requires close != [] && Constant(close)
    ensures TrendOfCloses(close) == Bearish
  {
    if |close| >= LongWindow {
      FlatWindows(close);
    }
  }

  lemma FlatWindows(close: seq<real>)
    requires |close| >= LongWindow && Constant(close)
    ensures Mean(close[|close| - ShortWindow..]) == Mean(close[|close| - LongWindow..])
  {
    var n := |close|;
    var short, long := close[n - ShortWindow..], close[n - LongWindow..];
    assert forall k :: 0 <= k < |short| ==> short[k] == close[n - ShortWindow + k];
    assert forall k :: 0 <= k < |long| ==> long[k] == close[n - LongWindow + k];
    MeanOfConstant(short, close[0]);
    MeanOfConstant(long, close[0]);
  }

  /** A series whose every close is higher than the previous one, with at
      least 200 bars, is Bullish. */
  lemma RisingIsBullish(close: seq<real>)
    requires Rising(close) && |close| >= LongWindow
    ensures TrendOfCloses(close) == Bullish
  {
    RisingWindows(close);
  }

  /** Zero volatility together with a zero mean return happens only on a
      flat series. */
  lemma StillSeries(close: seq<real>, volatility: real)
    requires NoZeroDivisor(close) && IsVolatility(close, volatility) && |close| >= 3
    requires volatility == 0.0 && Mean(DailyReturns(close)) == 0.0
    ensures Constant(close)
  {
    var rs := DailyReturns(close);
    assert Square(0.0) == 0.0;
    VarianceZeroIffConstant(rs);
    MeanOfConstant(rs, rs[0]);
    forall k | 0 <= k < |close|
      ensures close[k] == close[0]
    {
      FlatReturnsFlatCloses(close, k);
    }
  }

  /** A Bullish trend never comes with a NaN Sharpe ratio: NaN needs zero
      volatility and zero return, i.e. a flat series, and a flat series has
      equal moving averages. */
  lemma BullishSharpeIsNumber(close: seq<real>, volatility: real)
    requires NoZeroDivisor(close) && IsVolatility(close, volatility)
    requires close != [] && TrendOfCloses(close) == Bullish
    ensures SharpeRatio(close, volatility) != NotANumber
  {
    if SharpeRatio(close, volatility) == NotANumber {
      StillSeries(close, volatility);
      FlatIsBearish(close);
      assert false;
    }
  }

  /** The three-bar series 100, 102, 101: returns 2/100 and -1/102, their
      mean 13/2550 and the annualised return 252 * 13/2550 = 546/425. */
  lemma ThreeBars()
    ensures NoZeroDivisor([100.0, 102.0, 101.0])
    ensures AvgDailyReturn([100.0, 102.0, 101.0]) == Some(13.0 / 2550.0)
    ensures AnnualizedReturn([100.0, 102.0, 101.0]) == Some(546.0 / 425.0)
  {
    ThreeBarsReturns();
  }

  lemma ThreeBarsReturns()
    ensures DailyReturns([100.0, 102.0, 101.0]) == [1.0 / 50.0, -1.0 / 102.0]
    ensures Mean(DailyReturns([100.0, 102.0, 101.0])) == 13.0 / 2550.0
  {
    var rs := DailyReturns([100.0, 102.0, 101.0]);
    assert rs[0] == 1.0 / 50.0 && rs[1] == -1.0 / 102.0;
    assert rs == [1.0 / 50.0, -1.0 / 102.0];
    assert rs[1..][1..] == [];
    assert Sum(rs) == 1.0 / 50.0 + -1.0 / 102.0;
  }
}
