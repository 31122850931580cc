# Simple investment analyzer: metrics and recommendation model

A Dafny model of `SimpleInvestmentAnalyzer` in `main.py`. For each ticker it
takes the series of daily closing prices and computes:

- the daily returns (`pct_change`);
- their mean and the annualised return (mean × 252);
- the annualised volatility (sample standard deviation × √252);
- the Sharpe ratio (annualised return ÷ volatility);
- the last 50- and 200-bar moving averages;
- the current price and the Bullish/Bearish trend;
- the four-way recommendation printed by `generate_report`.

Prices are exact `real`s instead of floats. A float NaN is `Option.None`.
The Sharpe ratio's division is a `Metrics.Ratio`: a finite value, +∞, −∞
or NaN. So a zero volatility is an explicit outcome and the recommendation
chain compares it exactly as Python does: NaN compares false, infinities
compare by sign.

Modules:

- `Options` (options.dfy): the optional value.
- `Stats` (stats.dfy): sum, mean and sample variance (ddof=1), plus the
  NaN-skipping `mean`/`var` reductions pandas applies to a column.
- `Series` (series.dfy): the `pct_change` and `rolling(window).mean()`
  columns over the closes, and facts about rising and flat series.
- `Metrics` (metrics.dfy): the metrics record and `ComputeMetrics`, the
  pure content of `calculate_metrics`.
- `Messages` (messages.dfy): the four recommendations (`Advice`) and the texts
  `generate_report` prints for them.
- `Recommendation` (recommendation.dfy): the `if`/`elif` chain of
  `generate_report` and Python's float comparisons it relies on.
- `Analyzer` (analyzer.dfy): the `SimpleInvestmentAnalyzer` class. Its
  `data` map holds one frame per ticker. `CalculateMetrics` adds the
  `Daily_Return`, `MA50` and `MA200` columns to that frame in place, as the
  source does.

The model follows the code: an undefined moving average makes the strict
comparison false, so the trend is Bearish; a zero volatility gives ±∞ or
NaN for the Sharpe ratio. A series whose every close is above the previous
one, with at least 200 bars, is always Bullish (`Metrics.RisingIsBullish`).

## Model

| member | source | states |
|---|---|---|
| `Series.PctChange` | main.py:41 | The Daily_Return column has one entry per bar; only entry 0 is NaN |
| `Series.DailyReturns` | main.py:41-44 | The daily returns as plain numbers: none for an empty series, otherwise N−1 of them, one per pair of consecutive bars |
| `Series.ReturnsAreRelativeChanges` | main.py:41 | Return i times close i is the change from close i to close i+1 |
| `Series.PresentPctChange` | main.py:41-44 | The defined entries of the Daily_Return column, in order, are exactly the N−1 returns (c[i+1]−c[i])/c[i] |
| `Stats.NanMean` | main.py:44 | A column's mean is defined exactly when some entry is defined (all-NaN gives NaN) |
| `Metrics.AvgDailyReturn` | main.py:44 | The average daily return is defined iff N ≥ 2 and is then the mean of the N−1 daily returns |
| `Stats.SampleVariance` | main.py:46 | The ddof=1 sample variance of at least two values is non-negative |
| `Stats.NanVariance` | main.py:46 | The NaN-skipping ddof=1 variance of a column is defined exactly when at least two entries are defined, and is then non-negative |
| `Stats.VarianceZeroIffConstant` | main.py:46 | The sample variance is zero if and only if all values are equal |
| `Metrics.AnnualVolatility` | main.py:46 | The volatility is NaN for fewer than three closes (one return has no sample deviation), otherwise the volatility, which is the non-negative square root of 252 × the NaN-skipping ddof=1 variance of the Daily_Return column |
| `Metrics.AnnualizedReturn` | main.py:44-45 | The annualised return is defined iff N ≥ 2 and is then 252 × the mean of the N−1 daily returns |
| `Metrics.Divide` | main.py:47 | The float quotient is finite iff both operands are defined and the divisor is non-zero, and then quotient × divisor = numerator; a zero divisor gives +∞ or −∞ by the numerator's sign, and 0/0 or a NaN operand gives NaN |
| `Metrics.SharpeRatio` | main.py:44-47 | The Sharpe ratio is finite iff N ≥ 3 and the volatility is positive, and then ratio × volatility = annualised return; with zero volatility it is +∞ or −∞ by the sign of the mean return, and NaN when that mean is zero or N < 3 |
| `Series.Rolling` | main.py:50-51 | The MA50/MA200 columns have one entry per bar; entry i is NaN exactly when fewer than `window` bars end at i |
| `Series.LastMovingAverage` | main.py:50-57 | The kept last moving average is NaN iff the history is shorter than the window, otherwise the mean of the last `window` closes |
| `Metrics.TrendOf` | main.py:60-63 | A NaN moving average on either side gives Bearish; two defined averages give Bullish exactly when MA50 > MA200 |
| `Metrics.TrendOfCloses` | main.py:50-63 | The trend is Bullish iff there are at least 200 bars and the mean of the last 50 closes exceeds the mean of the last 200; a NaN moving average gives Bearish |
| `Metrics.ComputeMetrics` | main.py:31-65 | An empty series gives "no data". Otherwise: current price = last close; the average return is the mean of the N−1 returns (N ≥ 2); annualised = average × 252 exactly; Sharpe = annualised ÷ volatility, finite iff N ≥ 3 and volatility > 0; MA50/MA200 are NaN below 50/200 bars, otherwise the trailing means; Bullish iff N ≥ 200 and MA50 > MA200 |
| `Metrics.ThreeBars` | main.py:41-45 | For closes 100, 102, 101 the average daily return is 13/2550 and the annualised return 546/425 |
| `Metrics.StillSeries` | main.py:41-47 | Zero volatility with a zero mean return happens only on a series of equal closes |
| `Metrics.FlatSeries` | main.py:41-63 | A flat series of at least three bars has all returns zero, volatility 0, annualised return 0, Sharpe 0/0 = NaN and a Bearish trend |
| `Metrics.FlatIsBearish` | main.py:50-63 | Equal closes give a Bearish trend: MA50 equals MA200 when both are defined, so the strict comparison fails |
| `Series.RisingWindows` | main.py:50-51 | On a series where every close is above the previous one, the mean of the last 50 closes exceeds the mean of the last 200 |
| `Metrics.RisingIsBullish` | main.py:50-63 | Such a rising series with at least 200 bars is Bullish |
| `Metrics.BullishSharpeIsNumber` | main.py:46-63 | A Bullish trend never comes with a NaN Sharpe ratio |
| `Recommendation.Recommend` | main.py:105-112 | For a finite Sharpe ratio s: Buy iff Bullish and s > 1; Hold/Watch iff Bullish and s ≤ 1; Hold with Caution iff Bearish and s > 0.5; Sell/Avoid iff Bearish and s ≤ 0.5. +∞ passes every "greater" test and −∞ every "at most" test; NaN falls through to Sell/Avoid |
| `Recommendation.ComparisonsWithNaN` | main.py:105-109 | `s > k` and `s <= k` are each other's negation for every Sharpe value except NaN, for which both are false |
| `Messages.MessagesDistinct` | main.py:105-112 | The four recommendation texts are pairwise different, so the printed text identifies the branch taken |
| `Recommendation.BullishNeverSells` | main.py:105-112 | For metrics computed from a series, a Bullish trend always gives Buy or Hold/Watch. The chain's fall-through is reached from Bullish only with NaN, which never occurs |
| `Recommendation.FlatSeriesSells` | main.py:105-112 | A flat series of at least three bars is always "Consider Selling/Avoiding" |
| `Analyzer.WithIndicators` | main.py:41-51 | The frame keeps its closes and every other column, and gains exactly the Daily_Return, MA50 and MA200 columns: the pct_change column and the 50- and 200-bar rolling means |
| `Analyzer.SimpleInvestmentAnalyzer.constructor` | main.py:8-10 | A new analyzer holds no frames and no tickers |
| `Analyzer.SimpleInvestmentAnalyzer.FetchData` | main.py:12-29 | Records the ticker list; the data map holds exactly the listed tickers whose download succeeded, each with its downloaded close series and no derived columns; the method returns that map |
| `Analyzer.SimpleInvestmentAnalyzer.CalculateMetrics` | main.py:31-65 | An absent ticker or an empty frame gives "no data" and changes nothing. Otherwise the ticker's frame alone gains the Daily_Return, MA50 and MA200 columns, and the result is `ComputeMetrics` of its closes |
| `Analyzer.SimpleInvestmentAnalyzer.GenerateReport` | main.py:89-121 | "No data" exactly when `CalculateMetrics` has none. Otherwise it returns the metrics, `Recommend` of their trend and Sharpe ratio, and the `Message` text printed for that recommendation, and leaves the same frame update |
Helpers without a row of their own: `Metrics.Scale` (NaN × 252, main.py:45) and `Metrics.Greater` (the float `>`, main.py:60) are covered by the rows of `Metrics.AnnualizedReturn` and `Metrics.TrendOf`; `Analyzer.Frame.Empty` (`.empty`, main.py:33) by the rows of the analyzer methods; `Metrics.IsVolatility` (`std() * np.sqrt(252)`, main.py:46) by the row of `Metrics.AnnualVolatility`; `Messages.MessageLength` by the row of `Messages.MessagesDistinct`; `Series.OlderBelowPivot` and `Series.RecentAtLeastPivot` by the row of `Series.RisingWindows`.

## Left out

- Network access (`yf.Ticker(...).history`): `FetchData` takes the downloaded series as a parameter. A ticker missing from it is one whose download raised.
- The Open, High, Low and Volume columns and the date index: only the Close column enters any computation.
- `print` output and its formatting (`×100` percentages, `:.2f` rounding): presentation only.
- `visualize_stock` and its call at the end of `generate_report`: matplotlib plotting.
- `np.sqrt`: `volatility` is a parameter. `Metrics.IsVolatility` requires it to be the non-negative root of 252 × the sample variance of the returns.
- IEEE-754 rounding: all arithmetic is exact over `real`. NaN is `None`, and a quotient's infinities appear only in the Sharpe ratio.
- ComputeMetrics: requires every close except the last to be non-zero. `pct_change` divides by those closes, and a zero one would give an infinite return, which the model does not represent.
- Divide: treats a zero divisor as +0.0. The only divisor is a standard deviation, which is never −0.0.
- Analyzer.SimpleInvestmentAnalyzer.constructor: starts with an empty map. In the source `data` starts as `None`, and `calculate_metrics` before `fetch_data` raises `TypeError`; the model reports "no data" instead.
- Analyzer.SimpleInvestmentAnalyzer.GenerateReport: returns the recommendation and its text next to the metrics. The source prints the text and returns only the metrics dictionary.
- Analyzer.SimpleInvestmentAnalyzer.FetchData: returns the data map as a value. In the source `fetch_data` returns `self.data` itself, so the caller's dictionary is the same object and later shows the columns `calculate_metrics` adds; the model does not capture that aliasing.
- test_script.py: it calls `enable_test_mode` and reads `test_data_path`, neither of which `main.py` defines, and otherwise only checks files on disk; it is not part of this model.
