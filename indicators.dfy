/** The technical indicators of `StockDataService.get_technical_analysis`
    (backend/app/services/stock_data.py): moving averages, RSI, MACD with its
    signal line and Bollinger bands over the closing prices, each aligned
    position by position with the price history, a missing value (pandas' NaN,
    reported as None) wherever the trailing history is too short. */
module Indicators {
  import opened Wrappers
  import opened RealSeq

  /** One indicator line: a value or "missing" per price bar. */
  type Series = seq<Option<real>>

  const MaWindows: seq<nat> := [5, 10, 20, 50, 200]
  const RsiPeriod: nat := 14
  const FastSpan: nat := 12
  const SlowSpan: nat := 26
  const SignalSpan: nat := 9
  const BandWindow: nat := 20
  const BandWidth: real := 2.0

  /** The `w` values ending at position `i`. */
  function Trailing(xs: seq<real>, i: int, w: nat): seq<real>
    requires 1 <= w && w - 1 <= i < |xs|
  {
    xs[i - w + 1..i + 1]
  }

  // ---------------------------------------------------------------- MA

  /** `rolling(window=w).mean()`: missing at the first w − 1 positions, the
      mean of the trailing w values everywhere else. */
  function RollingMean(xs: seq<real>, w: nat): (r: Series)
    requires w >= 1
    ensures |r| == |xs|
    ensures forall i :: 0 <= i < |xs| ==> (r[i].None? <==> i < w - 1)
  {
    seq(|xs|, i requires 0 <= i < |xs| =>
      if i < w - 1 then None else Some(Mean(Trailing(xs, i, w))))
  }

  /** A constant price series has that constant as its moving average wherever
      the average is defined. */
  lemma MovingAverageOfFlat(xs: seq<real>, c: real, w: nat, i: int)
    requires Flat(xs, c) && w >= 1 && w - 1 <= i < |xs|
    ensures RollingMean(xs, w)[i] == Some(c)
  {
    MeanFlat(Trailing(xs, i, w), c);
  }

  /** A moving average stays between the lowest and the highest close of its
      window. */
  lemma MovingAverageWithin(xs: seq<real>, w: nat, i: int, lo: real, hi: real)
    requires w >= 1 && w - 1 <= i < |xs| && Within(Trailing(xs, i, w), lo, hi)
    ensures lo <= RollingMean(xs, w)[i].value <= hi
  {
    MeanWithin(Trailing(xs, i, w), lo, hi);
  }

  // ---------------------------------------------------------------- RSI

  /** `delta.where(delta > 0, 0)` at position i: the first delta is NaN, which
      fails the test and becomes 0. */
  function Gain(xs: seq<real>, i: int): real
    requires 0 <= i < |xs|
  {
    if i == 0 then 0.0 else if xs[i] - xs[i - 1] > 0.0 then xs[i] - xs[i - 1] else 0.0
  }

  /** `-delta.where(delta < 0, 0)` at position i. */
  function Loss(xs: seq<real>, i: int): real
    requires 0 <= i < |xs|
  {
    if i == 0 then 0.0 else if xs[i] - xs[i - 1] < 0.0 then xs[i - 1] - xs[i] else 0.0
  }

  function Gains(xs: seq<real>): (r: seq<real>)
    ensures |r| == |xs|
  {
    seq(|xs|, i requires 0 <= i < |xs| => Gain(xs, i))
  }

  function Losses(xs: seq<real>): (r: seq<real>)
    ensures |r| == |xs|
  {
    seq(|xs|, i requires 0 <= i < |xs| => Loss(xs, i))
  }

  /** RS = gain / loss and RSI = 100 − 100 / (1 + RS) with floating-point
      division: a zero loss makes RS infinite (RSI 100) when the gain is
      positive, and NaN (missing) when the gain is zero too. */
  function RsiFromAverages(gain: real, loss: real): (r: Option<real>)
    requires 0.0 <= gain && 0.0 <= loss
    ensures r.None? <==> gain == 0.0 && loss == 0.0
    ensures loss == 0.0 && gain > 0.0 ==> r == Some(100.0)
  {
    if loss == 0.0 then (if gain > 0.0 then Some(100.0) else None)
    else Some(100.0 - 100.0 / (1.0 + gain / loss))
  }

  /** The average gain and average loss over the `period` clipped deltas
      ending at position i; both are non-negative. */
  function AverageMoves(xs: seq<real>, i: int, period: nat): (r: (real, real))
    requires 1 <= period && period - 1 <= i < |xs|
    ensures 0.0 <= r.0 && 0.0 <= r.1
  {
    GainsLossesNonNegative(xs);
    TrailingNonNegative(Gains(xs), i, period);
    TrailingNonNegative(Losses(xs), i, period);
    (Mean(Trailing(Gains(xs), i, period)), Mean(Trailing(Losses(xs), i, period)))
  }

  /** The 14-period RSI line of the backend. */
  function Rsi(xs: seq<real>): (r: Series)
    ensures |r| == |xs|
  {
    seq(|xs|, i requires 0 <= i < |xs| =>
      if i < RsiPeriod - 1 then None
      else
        var (gain, loss) := AverageMoves(xs, i, RsiPeriod);
        RsiFromAverages(gain, loss))
  }

  lemma GainsLossesNonNegative(xs: seq<real>)
    ensures forall i :: 0 <= i < |xs| ==> 0.0 <= Gains(xs)[i] && 0.0 <= Losses(xs)[i]
  {
  }

  lemma TrailingNonNegative(s: seq<real>, i: int, w: nat)
    requires forall k :: 0 <= k < |s| ==> 0.0 <= s[k]
    requires 1 <= w && w - 1 <= i < |s|
    ensures forall k :: 0 <= k < w ==> 0.0 <= Trailing(s, i, w)[k]
    ensures 0.0 <= Mean(Trailing(s, i, w))
  {
    MeanNonNegative(Trailing(s, i, w));
  }

  /** RSI from non-negative average gain and loss lies in [0, 100], and is
      missing exactly when both averages are zero. */
  lemma RsiFromAveragesInRange(gain: real, loss: real)
    requires 0.0 <= gain && 0.0 <= loss
    ensures var v := RsiFromAverages(gain, loss);
            (v.None? <==> gain == 0.0 && loss == 0.0) &&
            (v.Some? ==> 0.0 <= v.value <= 100.0)
  {
    if loss != 0.0 {
      var rs := gain / loss;
      assert 0.0 <= rs;
      assert 0.0 < 100.0 / (1.0 + rs) <= 100.0;
    }
  }

  /** Every RSI value the backend reports lies in [0, 100], and positions
      0 to 12 are always missing. */
  lemma RsiInRange(xs: seq<real>, i: int)
    requires 0 <= i < |xs|
    ensures i < RsiPeriod - 1 ==> Rsi(xs)[i].None?
    ensures Rsi(xs)[i].Some? ==> 0.0 <= Rsi(xs)[i].value <= 100.0
  {
    if i >= RsiPeriod - 1 {
      var (gain, loss) := AverageMoves(xs, i, RsiPeriod);
      RsiFromAveragesInRange(gain, loss);
    }
  }

  /** Both clipped deltas at position k (k ≥ 1) are zero exactly when the close
      did not move. */
  lemma NoMoveAt(xs: seq<real>, k: int)
    requires 1 <= k < |xs|
    ensures Gain(xs, k) == 0.0 && Loss(xs, k) == 0.0 <==> xs[k] == xs[k - 1]
  {
  }

  lemma WindowFlatIffNoMove(xs: seq<real>, i: int, w: nat)
    requires 1 <= w && w - 1 <= i < |xs|
    ensures Flat(Trailing(Gains(xs), i, w), 0.0) && Flat(Trailing(Losses(xs), i, w), 0.0) <==>
            forall k :: i - w + 1 <= k <= i && 1 <= k ==> xs[k] == xs[k - 1]
  {
    var lo := i - w + 1;
    var g, l := Trailing(Gains(xs), i, w), Trailing(Losses(xs), i, w);
    assert forall k :: 0 <= k < w ==> g[k] == Gain(xs, lo + k) && l[k] == Loss(xs, lo + k);
    if Flat(g, 0.0) && Flat(l, 0.0) {
      forall k | lo <= k <= i && 1 <= k ensures xs[k] == xs[k - 1] {
        assert g[k - lo] == 0.0 && l[k - lo] == 0.0;
        NoMoveAt(xs, k);
      }
    }
    if forall k :: lo <= k <= i && 1 <= k ==> xs[k] == xs[k - 1] {
      forall k | 0 <= k < w ensures g[k] == 0.0 && l[k] == 0.0 {
        if lo + k >= 1 {
          NoMoveAt(xs, lo + k);
        }
      }
    }
  }

  /** From position 13 on, RSI is missing exactly when no close in its window
      moved: the 14 clipped deltas ending at i are all zero. (At position 13
      the window starts with the first delta, which is always 0.) */
  lemma RsiMissingIffNoMove(xs: seq<real>, i: int)
    requires RsiPeriod - 1 <= i < |xs|
    ensures Rsi(xs)[i].None? <==>
            forall k :: i - RsiPeriod + 1 <= k <= i && 1 <= k ==> xs[k] == xs[k - 1]
  {
    var (gain, loss) := AverageMoves(xs, i, RsiPeriod);
    RsiFromAveragesInRange(gain, loss);
    GainsLossesNonNegative(xs);
    TrailingNonNegative(Gains(xs), i, RsiPeriod);
    TrailingNonNegative(Losses(xs), i, RsiPeriod);
    MeanZeroIffAllZero(Trailing(Gains(xs), i, RsiPeriod));
    MeanZeroIffAllZero(Trailing(Losses(xs), i, RsiPeriod));
    WindowFlatIffNoMove(xs, i, RsiPeriod);
  }

  lemma DivScale(G: real, L: real, n: real)
    requires 0.0 < L && 0.0 < n
    ensures (G / n) / (L / n) == G / L
  {
    var g, l := G / n, L / n;
    assert g * n == G && l * n == L;
    var rs := g / l;
    assert rs * l == g;
    assert rs * L == rs * (l * n) == (rs * l) * n == G;
    DivIntro(rs, G, L);
  }

  /** 100 − 100 / (1 + G/L) = 100 · G / (G + L). */
  lemma GainShare(G: real, L: real)
    requires 0.0 <= G && 0.0 < L
    ensures 100.0 - 100.0 / (1.0 + G / L) == 100.0 * G / (G + L)
  {
    var d := 1.0 + G / L;
    assert d * L == L + G;
    var q := 100.0 / d;
    assert q * d == 100.0;
    assert q * (L + G) == (q * d) * L == 100.0 * L;
    var S := L + G;
    assert (100.0 - q) * S == 100.0 * S - q * S == 100.0 * G;
    DivIntro(100.0 - q, 100.0 * G, S);
  }

  lemma GainShareArithmetic(G: real, L: real, n: real)
    requires 0.0 <= G && 0.0 <= L && 0.0 < n && RsiFromAverages(G / n, L / n).Some?
    ensures G + L > 0.0 && RsiFromAverages(G / n, L / n).value == 100.0 * G / (G + L)
  {
    var g, l := G / n, L / n;
    assert g * n == G && l * n == L;
    if L == 0.0 {
      assert l == 0.0 && g > 0.0;
      MulNonNeg(g, n);
      assert G + L == G;
      DivIntro(100.0, 100.0 * G, G);
    } else {
      DivScale(G, L, n);
      GainShare(G, L);
    }
  }

  /** RSI as the share of gains in all movement over the window:
      RSI = 100 · G / (G + L) with G and L the summed gains and losses. */
  lemma RsiIsGainShare(xs: seq<real>, i: int)
    requires RsiPeriod - 1 <= i < |xs| && Rsi(xs)[i].Some?
    ensures var G := Sum(Trailing(Gains(xs), i, RsiPeriod));
            var L := Sum(Trailing(Losses(xs), i, RsiPeriod));
            G + L > 0.0 && Rsi(xs)[i].value == 100.0 * G / (G + L)
  {
    var g, l := Trailing(Gains(xs), i, RsiPeriod), Trailing(Losses(xs), i, RsiPeriod);
    GainsLossesNonNegative(xs);
    NonNegElementBelowSum(g, 0);
    NonNegElementBelowSum(l, 0);
    GainShareArithmetic(Sum(g), Sum(l), RsiPeriod as real);
  }

  // ---------------------------------------------------------------- MACD

  /** The smoothing factor of `ewm(span=s)`. */
  function Alpha(span: nat): real {
    2.0 / (span as real + 1.0)
  }

  /** `ewm(alpha, adjust=False).mean()`: seeded with the first value, then
      y[t] = (1 − α)·y[t − 1] + α·x[t]; defined at every position. */
  function Ema(xs: seq<real>, alpha: real): (r: seq<real>)
    ensures |r| == |xs|
    decreases |xs|
  {
    if xs == [] then []
    else if |xs| == 1 then [xs[0]]
    else
      var prev := Ema(xs[..|xs| - 1], alpha);
      prev + [(1.0 - alpha) * prev[|prev| - 1] + alpha * xs[|xs| - 1]]
  }

  /** Computing the average of a longer history does not change its earlier
      values. */
  lemma {:induction false} EmaPrefix(xs: seq<real>, alpha: real, k: int)
    requires 0 <= k <= |xs|
    ensures Ema(xs[..k], alpha) == Ema(xs, alpha)[..k]
    decreases |xs|
  {
    if k < |xs| {
      var init := xs[..|xs| - 1];
      EmaPrefix(init, alpha, k);
      assert init[..k] == xs[..k];
      if |xs| == 1 {
        assert k == 0;
      }
    } else {
      assert xs[..k] == xs;
    }
  }

  /** The recurrence pandas applies with `adjust=False`, position by position. */
  lemma EmaRecurrence(xs: seq<real>, alpha: real, i: int)
    requires 0 <= i < |xs|
    ensures i == 0 ==> Ema(xs, alpha)[0] == xs[0]
    ensures i > 0 ==> Ema(xs, alpha)[i] ==
                      (1.0 - alpha) * Ema(xs, alpha)[i - 1] + alpha * xs[i]
  {
    var p := xs[..i + 1];
    EmaPrefix(xs, alpha, i + 1);
    assert Ema(p, alpha)[i] == Ema(xs, alpha)[i];
    if i > 0 {
      assert p[..|p| - 1] == xs[..i];
      EmaPrefix(xs, alpha, i);
      assert Ema(p, alpha)[i - 1] == Ema(xs, alpha)[i - 1];
    }
  }

  lemma ConvexStep(alpha: real, p: real, x: real, lo: real, hi: real)
    requires 0.0 <= alpha <= 1.0 && lo <= p <= hi && lo <= x <= hi
    ensures lo <= (1.0 - alpha) * p + alpha * x <= hi
  {
    assert (1.0 - alpha) * p + alpha * x == p + alpha * (x - p);
    if x >= p {
      MulAtMost(alpha, x - p);
      assert alpha * (x - p) <= x - p;
      assert p + alpha * (x - p) <= x;
    } else {
      MulAtMost(alpha, p - x);
      assert alpha * (p - x) <= p - x;
      assert alpha * (x - p) == - (alpha * (p - x));
      assert p + alpha * (x - p) >= x;
    }
  }

  /** With 0 ≤ α ≤ 1 every average is a convex combination of the inputs seen
      so far, so it stays within their bounds. */
  lemma {:induction false} EmaWithin(xs: seq<real>, alpha: real, lo: real, hi: real)
    requires 0.0 <= alpha <= 1.0 && Within(xs, lo, hi)
    ensures Within(Ema(xs, alpha), lo, hi)
    decreases |xs|
  {
    if |xs| > 1 {
      var prev := Ema(xs[..|xs| - 1], alpha);
      EmaWithin(xs[..|xs| - 1], alpha, lo, hi);
      ConvexStep(alpha, prev[|prev| - 1], xs[|xs| - 1], lo, hi);
    }
  }

  lemma AlphaInUnitRange(span: nat)
    ensures 0.0 < Alpha(span) <= 2.0 && (span >= 1 ==> Alpha(span) <= 1.0)
  {
  }

  /** MACD line: EMA(12) − EMA(26) of the closes. */
  function Macd(xs: seq<real>): (r: seq<real>)
    ensures |r| == |xs|
  {
    var fast, slow := Ema(xs, Alpha(FastSpan)), Ema(xs, Alpha(SlowSpan));
    seq(|xs|, i requires 0 <= i < |xs| => fast[i] - slow[i])
  }

  /** Signal line: EMA(9) of the MACD line. */
  function SignalLine(xs: seq<real>): (r: seq<real>)
    ensures |r| == |xs|
  {
    Ema(Macd(xs), Alpha(SignalSpan))
  }

  /** A flat price series has MACD and signal 0 at every position. */
  lemma FlatMacd(xs: seq<real>, c: real)
    requires Flat(xs, c)
    ensures Flat(Macd(xs), 0.0) && Flat(SignalLine(xs), 0.0)
  {
    EmaWithin(xs, Alpha(FastSpan), c, c);
    EmaWithin(xs, Alpha(SlowSpan), c, c);
    EmaWithin(Macd(xs), Alpha(SignalSpan), 0.0, 0.0);
  }

  // ---------------------------------------------------------------- BB

  /** `rolling(window=w).std()`: the sample standard deviation of the trailing
      w values, missing at the first w − 1 positions. */
  function RollingStd(xs: seq<real>, w: nat, sqrt: real -> real): (r: Series)
    requires w >= 2
    ensures |r| == |xs|
  {
    seq(|xs|, i requires 0 <= i < |xs| =>
      if i < w - 1 then None else SampleStd(Trailing(xs, i, w), sqrt))
  }

  /** `m + k·s` on two possibly missing values: missing if either is. */
  function Offset(m: Option<real>, s: Option<real>, k: real): Option<real> {
    if m.Some? && s.Some? then Some(m.value + k * s.value) else None
  }

  datatype Bands = Bands(upper: Series, middle: Series, lower: Series)

  function Bollinger(xs: seq<real>, sqrt: real -> real): (b: Bands)
    ensures |b.upper| == |b.middle| == |b.lower| == |xs|
  {
    var mid, sd := RollingMean(xs, BandWindow), RollingStd(xs, BandWindow, sqrt);
    Bands(seq(|xs|, i requires 0 <= i < |xs| => Offset(mid[i], sd[i], BandWidth)),
          mid,
          seq(|xs|, i requires 0 <= i < |xs| => Offset(mid[i], sd[i], -BandWidth)))
  }

  /** The three bands are missing at the first 19 positions; elsewhere the
      middle band is the 20-period mean and the outer bands sit two standard
      deviations above and below it, so upper ≥ middle ≥ lower. */
  lemma BollingerOrdered(xs: seq<real>, sqrt: real -> real, i: int)
    requires NonNegativeRoot(sqrt) && 0 <= i < |xs|
    ensures var b := Bollinger(xs, sqrt);
            (i < BandWindow - 1 <==> b.upper[i].None?) &&
            (i < BandWindow - 1 <==> b.middle[i].None?) &&
            (i < BandWindow - 1 <==> b.lower[i].None?)
    ensures var b := Bollinger(xs, sqrt);
            i >= BandWindow - 1 ==>
              b.middle[i] == Some(Mean(Trailing(xs, i, BandWindow))) &&
              b.upper[i].value - b.middle[i].value == b.middle[i].value - b.lower[i].value ==
                BandWidth * SampleStd(Trailing(xs, i, BandWindow), sqrt).value &&
              b.lower[i].value <= b.middle[i].value <= b.upper[i].value
  {
    if i >= BandWindow - 1 {
      StdNonNegative(Trailing(xs, i, BandWindow), sqrt);
    }
  }

  // ---------------------------------------------------------------- report

  /** What the report holds under one indicator name: one line (RSI) or
      several named lines (MA5…MA200, MACD/Signal, Upper/Middle/Lower). */
  datatype IndicatorData = Single(values: Series) | Named(lines: map<string, Series>)

  datatype Report = Report(symbol: string, data: map<string, IndicatorData>)

  const Known: set<string> := {"MA", "RSI", "MACD", "BB"}

  function Defined(s: seq<real>): (r: Series)
    ensures |r| == |s| && forall i :: 0 <= i < |s| ==> r[i] == Some(s[i])
  {
    seq(|s|, i requires 0 <= i < |s| => Some(s[i]))
  }

  /** Every line of an indicator has one entry per price bar. */
  predicate Aligned(d: IndicatorData, n: nat) {
    match d
    case Single(v) => |v| == n
    case Named(lines) => forall l :: l in lines ==> |lines[l]| == n
  }

  function MovingAverages(xs: seq<real>): (m: map<string, Series>)
    ensures forall l :: l in m ==> |m[l]| == |xs|
  {
    map["MA5" := RollingMean(xs, MaWindows[0]),
        "MA10" := RollingMean(xs, MaWindows[1]),
        "MA20" := RollingMean(xs, MaWindows[2]),
        "MA50" := RollingMean(xs, MaWindows[3]),
        "MA200" := RollingMean(xs, MaWindows[4])]
  }

  function MacdLines(xs: seq<real>): (m: map<string, Series>)
    ensures forall l :: l in m ==> |m[l]| == |xs|
  {
    map["MACD" := Defined(Macd(xs)), "Signal" := Defined(SignalLine(xs))]
  }

  function BandLines(xs: seq<real>, sqrt: real -> real): (m: map<string, Series>)
    ensures forall l :: l in m ==> |m[l]| == |xs|
  {
    var b := Bollinger(xs, sqrt);
    map["Upper" := b.upper, "Middle" := b.middle, "Lower" := b.lower]
  }

  /** The lines computed under one known indicator name. */
  function IndicatorFor(xs: seq<real>, name: string, sqrt: real -> real): (d: IndicatorData)
    requires name in Known
    ensures Aligned(d, |xs|)
  {
    if name == "MA" then Named(MovingAverages(xs))
    else if name == "RSI" then Single(Rsi(xs))
    else if name == "MACD" then Named(MacdLines(xs))
    else Named(BandLines(xs, sqrt))
  }

  /** The indicators computed for a non-missing history, one entry per
      requested known name. */
  function IndicatorMap(xs: seq<real>, names: seq<string>, sqrt: real -> real): (m: map<string, IndicatorData>)
    ensures forall name :: name in m <==> name in names && name in Known
    ensures forall name :: name in m ==> Aligned(m[name], |xs|)
  {
    map name | name in Known && name in names :: IndicatorFor(xs, name, sqrt)
  }

  /** `get_technical_analysis` once the provider has answered: a failed fetch
      propagates, a None history gives an empty report, and otherwise the
      report holds exactly the requested indicators among MA, RSI, MACD and BB;
      other names are ignored. */
  function TechnicalAnalysis(symbol: string, history: Result<Option<seq<real>>, Error>,
                             indicators: seq<string>, sqrt: real -> real): (r: Result<Report, Error>)
    ensures history.Err? ==> r == Err(history.error)
    ensures history.Ok? ==> r.Ok? && r.value.symbol == symbol
    ensures history == Ok(None) ==> r.value.data == map[]
    ensures history.Ok? && history.value.Some? ==>
              forall name :: name in r.value.data <==> name in indicators && name in Known
    ensures history.Ok? && history.value.Some? ==>
              forall name :: name in r.value.data ==> Aligned(r.value.data[name], |history.value.value|)
  {
    match history
    case Err(e) => Err(e)
    case Ok(None) => Ok(Report(symbol, map[]))
    case Ok(Some(xs)) => Ok(Report(symbol, IndicatorMap(xs, indicators, sqrt)))
  }

  /** The flat-series scenario: with every close equal to c, each moving
      average is c once its window is full, RSI is missing everywhere (no
      gain, no loss) and MACD and signal are 0 everywhere. */
  lemma FlatSeriesReport(xs: seq<real>, c: real, sqrt: real -> real)
    requires Flat(xs, c)
    ensures var data := TechnicalAnalysis("X", Ok(Some(xs)), ["MA", "RSI", "MACD"], sqrt).value.data;
            && (forall i :: 4 <= i < |xs| ==> data["MA"].lines["MA5"][i] == Some(c))
            && (forall i :: 0 <= i < |xs| ==> data["RSI"].values[i].None?)
            && (forall i :: 0 <= i < |xs| ==> data["MACD"].lines["MACD"][i] == Some(0.0)
                                              && data["MACD"].lines["Signal"][i] == Some(0.0))
  {
    forall i | 4 <= i < |xs| ensures RollingMean(xs, 5)[i] == Some(c) {
      MovingAverageOfFlat(xs, c, 5, i);
    }
    forall i | 0 <= i < |xs| ensures Rsi(xs)[i].None? {
      if i >= RsiPeriod - 1 {
        RsiMissingIffNoMove(xs, i);
      }
    }
    FlatMacd(xs, c);
  }
}
