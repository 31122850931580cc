/** The recommendation rule of `generate_report`: an if/elif chain over the
    trend and the Sharpe ratio, evaluated with Python's float comparisons. */
module Recommendation {
  import opened Options
  import opened Stats
  import opened Series
  import opened Metrics
  import opened Messages

  /** Python's `s > k` for a float s: an infinity compares by sign, NaN is
      never greater. */
  predicate Exceeds(s: Ratio, k: real)
  {
    match s
    case Finite(v) => v > k
    case PlusInfinity => true
    case MinusInfinity => false
    case NotANumber => false
  }

  /** Python's `s <= k` for a float s: NaN is never less or equal either. */
  predicate AtMost(s: Ratio, k: real)
  {
    match s
    case Finite(v) => v <= k
    case PlusInfinity => false
    case MinusInfinity => true
    case NotANumber => false
  }

  /** `s > k` and `s <= k` are complementary for every value but NaN, for
      which both are false. */
  lemma ComparisonsWithNaN(s: Ratio, k: real)
    ensures s.NotANumber? <==> !Exceeds(s, k) && !AtMost(s, k)
    ensures !s.NotANumber? ==> (Exceeds(s, k) <==> !AtMost(s, k))
  {
  }

  /** The recommendation chain, branch by branch. */
  function Recommend(trend: Trend, sharpe: Ratio): (r: Advice)
    ensures sharpe.Finite? ==>
      (r == ConsiderBuying <==> trend == Bullish && sharpe.value > 1.0) &&
      (r == HoldWatch <==> trend == Bullish && sharpe.value <= 1.0) &&
      (r == HoldWithCaution <==> trend == Bearish && sharpe.value > 0.5) &&
      (r == ConsiderSelling <==> trend == Bearish && sharpe.value <= 0.5)
    ensures sharpe.PlusInfinity? ==> r == if trend == Bullish then ConsiderBuying else HoldWithCaution
    ensures sharpe.MinusInfinity? ==> r == if trend == Bullish then HoldWatch else ConsiderSelling
    ensures sharpe.NotANumber? ==> r == ConsiderSelling
  {
    if trend == Bullish && Exceeds(sharpe, 1.0) then ConsiderBuying
    else if trend == Bullish && AtMost(sharpe, 1.0) then HoldWatch
    else if trend == Bearish && Exceeds(sharpe, 0.5) then HoldWithCaution
    else
      assert sharpe.Finite? ==> Exceeds(sharpe, 1.0) || AtMost(sharpe, 1.0);
      assert !sharpe.NotANumber? ==> trend == Bearish;
      ConsiderSelling
  }

  /** For metrics computed from a price series, a Bullish trend always gives
      one of the two Bullish recommendations: the chain's fall-through to
      "Consider Selling" is reached from a Bullish trend only with a NaN
      Sharpe ratio, which such metrics never have. */
  lemma BullishNeverSells(close: seq<real>, volatility: real)
    requires NoZeroDivisor(close) && IsVolatility(close, volatility)
    requires close != [] && TrendOfCloses(close) == Bullish
    ensures Recommend(TrendOfCloses(close), SharpeRatio(close, volatility)) in {ConsiderBuying, HoldWatch}
  {
    BullishSharpeIsNumber(close, volatility);
  }

  /** A flat price series of at least three bars is always "Consider Selling". */
  lemma FlatSeriesSells(close: seq<real>, volatility: real)
    requires |close| >= 3 && Constant(close) && close[0] != 0.0
    requires IsVolatility(close, volatility)
    ensures NoZeroDivisor(close)
    ensures Recommend(TrendOfCloses(close), SharpeRatio(close, volatility)) == ConsiderSelling
  {
    FlatSeries(close, volatility);
  }
}
