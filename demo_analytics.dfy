/** The analytics helpers of the vnstock demo `advanced_features.py`: an
    RSI that fills its gaps with 50, growth rates, risk figures and a
    compounding price forecast. A frame is a row count and its numeric
    columns by name; a missing value is None. */
module DemoAnalytics {
  import opened Wrappers
  import opened RealSeq
  import Indicators

  const DefaultPeriod: nat := 14
  const Neutral: real := 50.0
  const TradingDays: real := 252.0

  datatype Table = Table(rows: nat, columns: map<string, seq<real>>)

  /** Every column of a frame has one value per row. */
  predicate Rectangular(t: Table) {
    forall name :: name in t.columns ==> |t.columns[name]| == t.rows
  }

  type Frame = t: Table | Rectangular(t) witness Table(0, map[])

  /** pandas' `DataFrame.empty`: no rows or no columns. */
  predicate Empty(f: Frame) {
    f.rows == 0 || f.columns == map[]
  }

  // ---------------------------------------------------------------- RSI

  /** `calculate_rsi(prices, period)`: all missing for fewer than `period`
      prices; otherwise RSI over `period`-window means of the clipped moves,
      where a zero average loss becomes NaN, and every NaN (the warm-up
      positions and the zero-loss windows) is filled with 50. */
  function DemoRsi(prices: seq<real>, period: nat): (r: seq<Option<real>>)
    requires period >= 1
    ensures |r| == |prices|
    ensures |prices| < period ==> forall i :: 0 <= i < |r| ==> r[i].None?
    ensures |prices| >= period ==> forall i :: 0 <= i < |r| ==> r[i].Some?
  {
    if |prices| < period then
      seq(|prices|, i => None)
    else
      seq(|prices|, i requires 0 <= i < |prices| => Some(DemoRsiAt(prices, period, i)))
  }

  /** The filled RSI at one position of a series at least `period` long. */
  function DemoRsiAt(prices: seq<real>, period: nat, i: int): real
    requires period >= 1 && 0 <= i < |prices|
  {
    if i < period - 1 then Neutral
    else
      var (gain, loss) := Indicators.AverageMoves(prices, i, period);
      if loss == 0.0 then Neutral else 100.0 - 100.0 / (1.0 + gain / loss)
  }

  lemma DemoRsiAtInRange(prices: seq<real>, period: nat, i: int)
    requires period >= 1 && 0 <= i < |prices|
    ensures 0.0 <= DemoRsiAt(prices, period, i) <= 100.0
  {
    if i >= period - 1 {
      var (gain, loss) := Indicators.AverageMoves(prices, i, period);
      if loss != 0.0 {
        Indicators.RsiFromAveragesInRange(gain, loss);
      }
    }
  }

  /** Every value lies in [0, 100]; warm-up positions and windows without a
      loss read 50, even where the gain is positive. */
  lemma DemoRsiInRange(prices: seq<real>, period: nat, i: int)
    requires period >= 1 && period <= |prices| && 0 <= i < |prices|
    ensures 0.0 <= DemoRsi(prices, period)[i].value <= 100.0
    ensures i < period - 1 ==> DemoRsi(prices, period)[i] == Some(Neutral)
    ensures i >= period - 1 && Indicators.AverageMoves(prices, i, period).1 == 0.0 ==>
              DemoRsi(prices, period)[i] == Some(Neutral)
  {
    assert DemoRsi(prices, period)[i] == Some(DemoRsiAt(prices, period, i));
    DemoRsiAtInRange(prices, period, i);
  }

  /** With the default period the demo RSI agrees with the backend's where
      the window has a loss; where it has none the backend reports 100 (a
      gain) or nothing (no move) and the demo 50. */
  lemma DemoRsiMatchesBackend(prices: seq<real>, i: int)
    requires DefaultPeriod <= |prices| && DefaultPeriod - 1 <= i < |prices|
    ensures var loss := Indicators.AverageMoves(prices, i, DefaultPeriod).1;
            var gain := Indicators.AverageMoves(prices, i, DefaultPeriod).0;
            && (loss != 0.0 ==> DemoRsi(prices, DefaultPeriod)[i] == Indicators.Rsi(prices)[i])
            && (loss == 0.0 && gain > 0.0 ==> Indicators.Rsi(prices)[i] == Some(100.0))
            && (loss == 0.0 && gain == 0.0 ==> Indicators.Rsi(prices)[i] == None)
            && (loss == 0.0 ==> DemoRsi(prices, DefaultPeriod)[i] == Some(Neutral))
  {
    assert DemoRsi(prices, DefaultPeriod)[i] == Some(DemoRsiAt(prices, DefaultPeriod, i));
  }

  // ---------------------------------------------------------------- growth

  /** `s.pct_change() * 100`: missing at the first position, and where the
      previous value is zero (an infinite or NaN change in floating point). */
  function PercentChange(xs: seq<real>): (r: seq<Option<real>>)
    ensures |r| == |xs|
    ensures |xs| > 0 ==> r[0].None?
    ensures forall i :: 1 <= i < |xs| ==> (r[i].Some? <==> xs[i - 1] != 0.0)
  {
    seq(|xs|, i requires 0 <= i < |xs| =>
      if i == 0 || xs[i - 1] == 0.0 then None else Some(Change(xs[i - 1], xs[i]) * 100.0))
  }

  /** Each growth rate rebuilds the value it was taken to from the one
      before. */
  lemma PercentChangeRebuilds(xs: seq<real>, i: int)
    requires 1 <= i < |xs| && PercentChange(xs)[i].Some?
    ensures xs[i - 1] * (1.0 + PercentChange(xs)[i].value / 100.0) == xs[i]
  {
    ChangeRebuilds(xs[i - 1], xs[i]);
    assert PercentChange(xs)[i].value / 100.0 == Change(xs[i - 1], xs[i]);
  }

  /** `calculate_growth_metrics(income_data)`: an empty frame, or one
      lacking `revenue` or `net_income`, gives an empty frame; otherwise the
      percentage growth of both columns. */
  function GrowthMetrics(income: Frame): (r: map<string, seq<Option<real>>>)
    ensures Empty(income) || "revenue" !in income.columns || "net_income" !in income.columns ==> r == map[]
    ensures !Empty(income) && "revenue" in income.columns && "net_income" in income.columns ==>
              && r.Keys == {"revenue_growth", "profit_growth"}
              && |r["revenue_growth"]| == |r["profit_growth"]| == income.rows
              && r["revenue_growth"][0].None? && r["profit_growth"][0].None?
  {
    if Empty(income) || "revenue" !in income.columns || "net_income" !in income.columns then map[]
    else map["revenue_growth" := PercentChange(income.columns["revenue"]),
             "profit_growth" := PercentChange(income.columns["net_income"])]
  }

  // ---------------------------------------------------------------- risk

  function MaxOf(s: seq<real>): (r: real)
    requires |s| > 0
    ensures r in s && forall i :: 0 <= i < |s| ==> s[i] <= r
  {
    if |s| == 1 then s[0]
    else
      var m := MaxOf(s[..|s| - 1]);
      if s[|s| - 1] > m then s[|s| - 1] else m
  }

  function MinOf(s: seq<real>): (r: real)
    requires |s| > 0
    ensures r in s && forall i :: 0 <= i < |s| ==> r <= s[i]
  {
    if |s| == 1 then s[0]
    else
      var m := MinOf(s[..|s| - 1]);
      if s[|s| - 1] < m then s[|s| - 1] else m
  }

  /** The day-to-day changes of a close series, the first (NaN) one dropped
      as `std` and `mean` skip it; None when a close before the last is zero,
      whose change is not finite. */
  function Returns(closes: seq<real>): (r: Option<seq<real>>)
    ensures r.None? <==> exists i :: 0 <= i < |closes| - 1 && closes[i] == 0.0
    ensures r.Some? ==> |r.value| == if |closes| == 0 then 0 else |closes| - 1
    ensures r.Some? ==> forall i :: 1 <= i < |closes| ==> r.value[i - 1] == Change(closes[i - 1], closes[i])
  {
    if exists i :: 0 <= i < |closes| - 1 && closes[i] == 0.0 then None
    else if |closes| == 0 then Some([])
    else Some(seq(|closes| - 1, i requires 0 <= i < |closes| - 1 => Change(closes[i], closes[i + 1])))
  }

  /** `(max − min) / max · 100`; None when the maximum is zero. */
  function Drawdown(closes: seq<real>): Option<real>
    requires |closes| > 0
  {
    var hi := MaxOf(closes);
    if hi == 0.0 then None else Some((hi - MinOf(closes)) / hi * 100.0)
  }

  /** The spread between a positive low and a high at least as large, as a
      percentage of the high, lies in [0, 100) and is 0 only when they meet. */
  lemma SpreadPercent(hi: real, lo: real)
    requires 0.0 < lo <= hi
    ensures 0.0 <= (hi - lo) / hi * 100.0 < 100.0
    ensures (hi - lo) / hi * 100.0 == 0.0 <==> hi == lo
  {
    var q := lo / hi;
    assert q * hi == lo;
    assert (1.0 - q) * hi == hi - lo;
    DivIntro(1.0 - q, hi - lo, hi);
    if q <= 0.0 {
      MulNonNeg(-q, hi);
      assert false;
    }
  }

  /** For positive closes the drawdown is a percentage in [0, 100), and zero
      exactly when every close is the same. */
  lemma DrawdownBounds(closes: seq<real>)
    requires |closes| > 0 && forall i :: 0 <= i < |closes| ==> closes[i] > 0.0
    ensures Drawdown(closes).Some?
    ensures 0.0 <= Drawdown(closes).value < 100.0
    ensures Drawdown(closes).value == 0.0 <==> Flat(closes, closes[0])
  {
    var hi, lo := MaxOf(closes), MinOf(closes);
    assert 0.0 < lo <= hi;
    SpreadPercent(hi, lo);
    if Flat(closes, closes[0]) {
      assert hi == lo;
    }
    if hi == lo {
      assert forall i :: 0 <= i < |closes| ==> closes[i] == closes[0];
    }
  }

  /** `returns.std() · √252 · 100`, the annualised volatility in percent:
      None for fewer than two finite changes (NaN) or a change that is not
      finite. */
  function Volatility(closes: seq<real>, sqrt: real -> real): (r: Option<real>)
    ensures r.Some? <==> |closes| >= 3 && Returns(closes).Some?
  {
    var changes := Returns(closes);
    if changes.None? then None
    else
      var sd := SampleStd(changes.value, sqrt);
      if sd.None? then None else Some(sd.value * sqrt(TradingDays) * 100.0)
  }

  /** With a non-negative square root the volatility is never negative. */
  lemma VolatilityNonNegative(closes: seq<real>, sqrt: real -> real)
    requires NonNegativeRoot(sqrt)
    ensures Volatility(closes, sqrt).Some? ==> Volatility(closes, sqrt).value >= 0.0
  {
    var changes := Returns(closes);
    if changes.Some? && |changes.value| >= 2 {
      StdNonNegative(changes.value, sqrt);
      var sd := SampleStd(changes.value, sqrt).value;
      MulNonNeg(sd, sqrt(TradingDays));
      MulNonNeg(sd * sqrt(TradingDays), 100.0);
    }
  }

  /** `calculate_risk_metrics(price_data)`: an empty frame or one without a
      `close` column gives an empty series; otherwise the volatility and the
      drawdown of the closes. */
  function RiskMetrics(prices: Frame, sqrt: real -> real): (r: map<string, Option<real>>)
    ensures Empty(prices) || "close" !in prices.columns ==> r == map[]
    ensures !Empty(prices) && "close" in prices.columns ==>
              && r.Keys == {"volatility", "max_drawdown"}
              && r["volatility"] == Volatility(prices.columns["close"], sqrt)
              && r["max_drawdown"] == Drawdown(prices.columns["close"])
  {
    if Empty(prices) || "close" !in prices.columns then map[]
    else
      var closes := prices.columns["close"];
      map["volatility" := Volatility(closes, sqrt), "max_drawdown" := Drawdown(closes)]
  }

  // ---------------------------------------------------------------- forecast

  function Pow(b: real, n: nat): real {
    if n == 0 then 1.0 else Pow(b, n - 1) * b
  }

  /** The mean daily change of at least two closes, None when a change is
      not finite. */
  function AverageReturn(closes: seq<real>): (r: Option<real>)
    requires |closes| >= 2
    ensures r.Some? <==> Returns(closes).Some?
  {
    var changes := Returns(closes);
    if changes.None? then None else Some(Mean(changes.value))
  }

  /** `last * (1 + rate) ** i`. */
  function Compounded(last: real, rate: real, i: nat): real {
    last * Pow(1.0 + rate, i)
  }

  /** The forecast price `i` days ahead: last · (1 + average return)^i. */
  function ForecastPrice(closes: seq<real>, i: nat): (r: Option<real>)
    requires |closes| >= 2
    ensures r.Some? <==> AverageReturn(closes).Some?
    ensures r.Some? && i == 0 ==> r.value == closes[|closes| - 1]
  {
    var avg := AverageReturn(closes);
    if avg.None? then None else Some(Compounded(closes[|closes| - 1], avg.value, i))
  }

  /** Whether the frame can be forecast from: not empty, at least two rows,
      and a `close` column (without one the lookup raises and the exception
      is caught). */
  predicate Forecastable(data: Frame) {
    !Empty(data) && data.rows >= 2 && "close" in data.columns
  }

  /** `simple_price_forecast(price_data, days)`: the forecast price for each
      of the next `days` days, one row per day (the row dates are not
      modelled). */
  method SimplePriceForecast(data: Frame, days: int) returns (rows: seq<Option<real>>)
    ensures !Forecastable(data) ==> rows == []
    ensures Forecastable(data) ==>
              && |rows| == (if days > 0 then days else 0)
              && forall k :: 0 <= k < |rows| ==> rows[k] == ForecastPrice(data.columns["close"], k + 1)
  {
    if Empty(data) || data.rows < 2 || "close" !in data.columns {
      return [];
    }
    var closes := data.columns["close"];
    var avg := AverageReturn(closes);
    var last := closes[|closes| - 1];
    var n := if days > 0 then days else 0;
    rows := [];
    for i := 1 to n + 1
      invariant |rows| == i - 1
      invariant forall k :: 0 <= k < |rows| ==> rows[k] == ForecastPrice(closes, k + 1)
    {
      var price := if avg.None? then None else Some(Compounded(last, avg.value, i));
      rows := rows + [price];
    }
  }

  /** Each forecast day compounds the previous one by (1 + average return),
      starting from the last close. */
  lemma ForecastCompounds(closes: seq<real>, i: nat)
    requires |closes| >= 2 && AverageReturn(closes).Some?
    ensures ForecastPrice(closes, 0) == Some(closes[|closes| - 1])
    ensures ForecastPrice(closes, i + 1).value ==
            ForecastPrice(closes, i).value * (1.0 + AverageReturn(closes).value)
  {
    var b := 1.0 + AverageReturn(closes).value;
    assert Pow(b, i + 1) == Pow(b, i) * b;
  }

  lemma {:induction false} PowOne(n: nat)
    ensures Pow(1.0, n) == 1.0
  {
    if n > 0 {
      PowOne(n - 1);
    }
  }

  /** A steady, non-zero close forecasts that same price on every day. */
  lemma SteadyForecast(closes: seq<real>, c: real, i: nat)
    requires |closes| >= 2 && c != 0.0 && Flat(closes, c)
    ensures ForecastPrice(closes, i) == Some(c)
  {
    var changes := Returns(closes).value;
    forall k | 0 <= k < |changes| ensures changes[k] == 0.0 {
      assert changes[k] == Change(closes[k], closes[k + 1]);
    }
    MeanFlat(changes, 0.0);
    PowOne(i);
  }
}
