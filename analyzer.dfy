/** `SimpleInvestmentAnalyzer`: the per-ticker price frames it holds and
    the in-place column updates `calculate_metrics` makes to them. */
module Analyzer {
  import opened Options
  import opened Stats
  import opened Series
  import opened Metrics
  import opened Messages
  import opened Recommendation

  /** A ticker's price frame: its closing prices and the derived columns
      added to it by name, each with one entry per bar. */
  datatype Frame = Frame(close: seq<real>, columns: map<string, seq<Option<real>>>)
  {
    /** pandas' `DataFrame.empty` for a frame that has a Close column. */
    predicate Empty()
    {
      close == []
    }
  }

  /** The frame after `calculate_metrics` has added its three columns. */
  function WithIndicators(f: Frame): (g: Frame)
    requires NoZeroDivisor(f.close)
    ensures g.close == f.close
    ensures g.columns.Keys == f.columns.Keys + {"Daily_Return", "MA50", "MA200"}
    ensures forall name :: name in f.columns && name !in {"Daily_Return", "MA50", "MA200"} ==>
      g.columns[name] == f.columns[name]
    ensures g.columns["Daily_Return"] == PctChange(f.close)
    ensures g.columns["MA50"] == Rolling(f.close, ShortWindow) && g.columns["MA200"] == Rolling(f.close, LongWindow)
  {
    f.(columns := f.columns["Daily_Return" := PctChange(f.close)]
                              ["MA50" := Rolling(f.close, ShortWindow)]
                              ["MA200" := Rolling(f.close, LongWindow)])
  }

  /** What `generate_report` produces for a ticker: the metrics, the
      recommendation and the text it prints for it. */
  datatype Report = Report(metrics: Metrics, recommendation: Advice, text: string)

  /** A ticker whose close series `calculate_metrics` can process with the
      given volatility. */
  predicate Computable(data: map<string, Frame>, ticker: string, volatility: real)
  {
    ticker in data ==>
      NoZeroDivisor(data[ticker].close) && IsVolatility(data[ticker].close, volatility)
  }

  class SimpleInvestmentAnalyzer {
    var data: map<string, Frame>
    var tickers: seq<string>

    constructor ()
      ensures data == map[] && tickers == []
    {
      data := map[];
      tickers := [];
    }

    /** `fetch_data`: `history` holds the price series of every ticker whose
        download did not raise; a ticker missing from it was skipped. */
    method FetchData(symbols: seq<string>, history: map<string, seq<real>>) returns (d: map<string, Frame>)
      modifies this
      ensures tickers == symbols
      ensures data == map t | t in symbols && t in history :: Frame(history[t], map[])
      ensures d == data
    {
      tickers := symbols;
      data := map[];
      for i := 0 to |symbols|
        invariant tickers == symbols
        invariant data == map t | t in symbols[..i] && t in history :: Frame(history[t], map[])
      {
        var t := symbols[i];
        assert symbols[..i + 1] == symbols[..i] + [t];
        if t in history {
          data := data[t := Frame(history[t], map[])];
        }
      }
      assert symbols[..|symbols|] == symbols;
      d := data;
    }

    /** `calculate_metrics`: "no data" for an absent ticker or an empty frame,
        leaving everything unchanged; otherwise the ticker's frame gains the
        Daily_Return, MA50 and MA200 columns and its metrics are returned. */
    method CalculateMetrics(ticker: string, volatility: real) returns (m: Option<Metrics>)
      requires Computable(data, ticker, volatility)
      modifies this
      ensures tickers == old(tickers)
      ensures m.None? <==> ticker !in old(data) || old(data)[ticker].Empty()
      ensures m.None? ==> data == old(data)
      ensures m.Some? ==>
        m == ComputeMetrics(old(data)[ticker].close, volatility) &&
        data == old(data)[ticker := WithIndicators(old(data)[ticker])]
    {
      if ticker !in data || data[ticker].Empty() {
        return None;
      }
      var frame := WithIndicators(data[ticker]);
      data := data[ticker := frame];
      m := ComputeMetrics(frame.close, volatility);
    }

    /** `generate_report`: the metrics together with the recommendation the
        rule derives from their trend and Sharpe ratio; nothing for a ticker
        without data. */
    method GenerateReport(ticker: string, volatility: real) returns (r: Option<Report>)
      requires Computable(data, ticker, volatility)
      modifies this
      ensures tickers == old(tickers)
      ensures r.None? <==> ticker !in old(data) || old(data)[ticker].Empty()
      ensures r.None? ==> data == old(data)
      ensures r.Some? ==>
        var m := ComputeMetrics(old(data)[ticker].close, volatility).value;
        r.value == Report(m, Recommend(m.trend, m.sharpeRatio), Message(Recommend(m.trend, m.sharpeRatio))) &&
        data == old(data)[ticker := WithIndicators(old(data)[ticker])]
    {
      var metrics := CalculateMetrics(ticker, volatility);
      if metrics.None? {
        return None;
      }
      var m := metrics.value;
      var advice := Recommend(m.trend, m.sharpeRatio);
      r := Some(Report(m, advice, Message(advice)));
    }
  }
}
