/** `StockDataService.get_portfolio_analysis` and
    `StockDataService.get_portfolio_performance`
    (backend/app/services/stock_data.py): per-symbol fetch loops, weighted
    valuation sums over the (record, weight) pairs `zip` yields, weighted
    total and daily returns, their sample standard deviation and the Sharpe
    ratio. */
module Portfolio {
  import opened Wrappers
  import opened JsonValue
  import opened RealSeq

  /** The company overview record `get_stock_basic_info` returns under
      "data" (an empty object when the provider has no overview). */
  type Fields = seq<(string, Json)>

  // ------------------------------------------------------------ fetching

  /** The fetch loop: one provider answer per symbol, in order, or the first
      failure, which ends the loop. */
  function FetchAll<T>(symbols: seq<string>, fetch: string -> Result<T, Error>): (r: Result<seq<T>, Error>)
    ensures r.Ok? ==> |r.value| == |symbols| &&
                      forall i :: 0 <= i < |symbols| ==> fetch(symbols[i]) == Ok(r.value[i])
    ensures r.Err? ==> exists i :: 0 <= i < |symbols| && fetch(symbols[i]) == Err(r.error) &&
                                   forall j :: 0 <= j < i ==> fetch(symbols[j]).Ok?
    ensures r.Err? <==> exists i :: 0 <= i < |symbols| && fetch(symbols[i]).Err?
  {
    if symbols == [] then Ok([])
    else match fetch(symbols[0])
      case Err(e) => Err(e)
      case Ok(v) =>
        var rest := FetchAll(symbols[1..], fetch);
        assert forall i :: 1 <= i < |symbols| ==> symbols[1..][i - 1] == symbols[i];
        if rest.Err? then
          var k :| 0 <= k < |symbols[1..]| && fetch(symbols[1..][k]) == Err(rest.error) &&
                   forall j :: 0 <= j < k ==> fetch(symbols[1..][j]).Ok?;
          assert fetch(symbols[k + 1]) == Err(rest.error);
          PrependOk([v], rest)
        else
          PrependOk([v], rest)
  }

  // ------------------------------------------------------------ weights

  /** `weights`, or `[1.0 / len(symbols)] * len(symbols)` when it is None.
      The division is evaluated before the list is built, so no symbols and
      no weights raise ZeroDivisionError. */
  function EffectiveWeights(n: nat, weights: Option<seq<real>>): (r: Result<seq<real>, Error>)
    ensures weights.Some? ==> r == Ok(weights.value)
    ensures weights.None? ==> (r.Err? <==> n == 0) && (r.Err? ==> r.error == ZeroDivision)
  {
    if weights.Some? then Ok(weights.value)
    else if n == 0 then Err(ZeroDivision)
    else Ok(seq(n, _ => 1.0 / n as real))
  }

  /** The default weights are all 1/N and add up to 1. */
  lemma DefaultWeightsSumToOne(n: nat)
    requires n > 0
    ensures var w := EffectiveWeights(n, None).value;
            |w| == n && Flat(w, 1.0 / n as real) && Sum(w) == 1.0
  {
    var w := EffectiveWeights(n, None).value;
    var c := 1.0 / n as real;
    SumWithin(w, c, c);
    assert n as real * c == 1.0;
  }

  // ------------------------------------------------------------ analysis

  /** Python's `float(v)`: numbers and booleans convert, a string converts
      when `parse` reads a number in it and raises ValueError otherwise,
      anything else raises TypeError. */
  function ToFloat(j: Json, parse: string -> Option<real>): Result<real, Error> {
    match j
    case JNum(n) => Ok(n)
    case JBool(b) => Ok(if b then 1.0 else 0.0)
    case JStr(s) => if parse(s).Some? then Ok(parse(s).value) else Err(ValueError)
    case _ => Err(TypeError)
  }

  /** `info.get(name, 0)`. */
  function FieldOr(info: Fields, name: string): Json {
    match Get(info, name)
    case Some(v) => v
    case None => JNum(0.0)
  }

  /** `sum(float(info.get(name, 0)) * weight for info, weight in zip(infos, weights))`:
      the pairs are visited in order and the first failing conversion raises. */
  function WeightedFieldSum(infos: seq<Fields>, weights: seq<real>, name: string,
                            parse: string -> Option<real>): Result<real, Error>
    decreases |infos|
  {
    if infos == [] || weights == [] then Ok(0.0)
    else
      var v := ToFloat(FieldOr(infos[0], name), parse);
      if v.Err? then Err(v.error)
      else
        var rest := WeightedFieldSum(infos[1..], weights[1..], name, parse);
        if rest.Err? then Err(rest.error) else Ok(Weighted(v.value, weights[0]) + rest.value)
  }

  function Min(a: int, b: int): int {
    if a < b then a else b
  }

  /** `zip` stops at the shorter list: records or weights beyond the first
      min(len) pairs never contribute and are never converted. */
  lemma {:induction false} FieldSumUsesZip(infos: seq<Fields>, weights: seq<real>, name: string,
                                           parse: string -> Option<real>)
    ensures var m := Min(|infos|, |weights|);
            WeightedFieldSum(infos, weights, name, parse) ==
            WeightedFieldSum(infos[..m], weights[..m], name, parse)
    decreases |infos|
  {
    var m := Min(|infos|, |weights|);
    if m > 0 {
      FieldSumUsesZip(infos[1..], weights[1..], name, parse);
      assert infos[..m][0] == infos[0] && weights[..m][0] == weights[0];
      assert infos[..m][1..] == infos[1..][..m - 1];
      assert weights[..m][1..] == weights[1..][..m - 1];
      assert Min(|infos[1..]|, |weights[1..]|) == m - 1;
      var a := WeightedFieldSum(infos, weights, name, parse);
      var b := WeightedFieldSum(infos[..m], weights[..m], name, parse);
      var v := ToFloat(FieldOr(infos[0], name), parse);
      var rest := WeightedFieldSum(infos[1..], weights[1..], name, parse);
      if v.Ok? && rest.Ok? {
        var t := Weighted(v.value, weights[0]);
        assert a == Ok(t + rest.value);
        assert b == Ok(t + rest.value);
      }
    }
  }

  /** A field no record has counts as 0, whatever the weights. */
  lemma {:induction false} MissingFieldCountsZero(infos: seq<Fields>, weights: seq<real>, name: string,
                                                  parse: string -> Option<real>)
    requires forall i :: 0 <= i < |infos| ==> Get(infos[i], name).None?
    ensures WeightedFieldSum(infos, weights, name, parse) == Ok(0.0)
    decreases |infos|
  {
    if infos != [] && weights != [] {
      MissingFieldCountsZero(infos[1..], weights[1..], name, parse);
    }
  }

  /** When every record holds a number under the field, the sum is the
      weighted sum Σ value·weight over the zipped pairs. */
  lemma {:induction false} FieldSumIsDot(infos: seq<Fields>, weights: seq<real>, name: string,
                                         parse: string -> Option<real>, values: seq<real>)
    requires |values| == |infos| == |weights|
    requires forall i :: 0 <= i < |infos| ==> FieldOr(infos[i], name) == JNum(values[i])
    ensures WeightedFieldSum(infos, weights, name, parse) == Ok(Dot(values, weights))
    decreases |infos|
  {
    if infos != [] {
      FieldSumIsDot(infos[1..], weights[1..], name, parse, values[1..]);
      DotCons(values, weights);
      assert ToFloat(FieldOr(infos[0], name), parse) == Ok(values[0]);
      var whole := WeightedFieldSum(infos, weights, name, parse);
      var rest := WeightedFieldSum(infos[1..], weights[1..], name, parse);
      assert whole == Ok(Weighted(values[0], weights[0]) + rest.value);
    }
  }

  /** With the default weights and every record numeric, each metric is the
      plain average of the field over the portfolio. */
  lemma DefaultWeightsAverage(infos: seq<Fields>, name: string, parse: string -> Option<real>,
                              values: seq<real>)
    requires |values| == |infos| > 0
    requires forall i :: 0 <= i < |infos| ==> FieldOr(infos[i], name) == JNum(values[i])
    ensures WeightedFieldSum(infos, EffectiveWeights(|infos|, None).value, name, parse) == Ok(Mean(values))
  {
    var w := EffectiveWeights(|infos|, None).value;
    var c := 1.0 / |values| as real;
    DefaultWeightsSumToOne(|infos|);
    DotFlat(values, w, c);
    MeanIsScaledSum(values);
    var d := Dot(values, w);
    assert d == Mean(values);
    FieldSumIsDot(infos, w, name, parse, values);
  }

  datatype Analysis = Analysis(symbols: seq<string>, weights: seq<real>, totalMarketCap: real,
                               avgPe: real, avgPb: real, stocks: seq<Fields>)

  /** The three metrics, in the order the source computes them. */
  function Metrics(infos: seq<Fields>, weights: seq<real>, parse: string -> Option<real>)
    : Result<(real, real, real), Error>
  {
    var cap := WeightedFieldSum(infos, weights, "market_cap", parse);
    var pe := WeightedFieldSum(infos, weights, "pe", parse);
    var pb := WeightedFieldSum(infos, weights, "pb", parse);
    if cap.Err? then Err(cap.error)
    else if pe.Err? then Err(pe.error)
    else if pb.Err? then Err(pb.error)
    else Ok((cap.value, pe.value, pb.value))
  }

  /** What `get_portfolio_analysis` returns or raises. */
  function AnalysisOf(symbols: seq<string>, weights: Option<seq<real>>,
                      fetch: string -> Result<Fields, Error>,
                      parse: string -> Option<real>): (r: Result<Analysis, Error>)
    ensures weights.None? && symbols == [] ==> r == Err(ZeroDivision)
    ensures r.Ok? ==> r.value.symbols == symbols && |r.value.stocks| == |symbols| &&
                      (weights.Some? ==> r.value.weights == weights.value) &&
                      (weights.None? ==> |r.value.weights| == |symbols|)
  {
    var w := EffectiveWeights(|symbols|, weights);
    if w.Err? then Err(w.error)
    else
      var infos := FetchAll(symbols, fetch);
      if infos.Err? then Err(infos.error)
      else
        var m := Metrics(infos.value, w.value, parse);
        if m.Err? then Err(m.error)
        else Ok(Analysis(symbols, w.value, m.value.0, m.value.1, m.value.2, infos.value))
  }

  /** The per-symbol loop both portfolio operations open with: ask the
      provider for each symbol in turn and append its answer; the first
      failure is raised. */
  method FetchEach<T>(symbols: seq<string>, fetch: string -> Result<T, Error>)
    returns (r: Result<seq<T>, Error>)
    ensures r == FetchAll(symbols, fetch)
  {
    var got: seq<T> := [];
    assert symbols[0..] == symbols;
    PrependNothing(FetchAll(symbols, fetch));
    for i := 0 to |symbols|
      invariant FetchAll(symbols, fetch) == PrependOk(got, FetchAll(symbols[i..], fetch))
    {
      assert symbols[i..][1..] == symbols[i + 1..];
      var answer := fetch(symbols[i]);
      if answer.Err? {
        return Err(answer.error);
      }
      PrependTwice(got, [answer.value], FetchAll(symbols[i + 1..], fetch));
      got := got + [answer.value];
    }
    assert symbols[|symbols|..] == [] && got + [] == got;
    return Ok(got);
  }

  /** `get_portfolio_analysis`: the fetch loop appends each record to
      `stocks_info`, then the three sums are taken. */
  method PortfolioAnalysis(symbols: seq<string>, weights: Option<seq<real>>,
                           fetch: string -> Result<Fields, Error>,
                           parse: string -> Option<real>) returns (r: Result<Analysis, Error>)
    ensures r == AnalysisOf(symbols, weights, fetch, parse)
  {
    var w := EffectiveWeights(|symbols|, weights);
    if w.Err? {
      return Err(w.error);
    }
    var stocksInfo := FetchEach(symbols, fetch);
    if stocksInfo.Err? {
      return Err(stocksInfo.error);
    }
    var m := Metrics(stocksInfo.value, w.value, parse);
    if m.Err? {
      return Err(m.error);
    }
    r := Ok(Analysis(symbols, w.value, m.value.0, m.value.1, m.value.2, stocksInfo.value));
  }

  // ------------------------------------------------------------ performance

  /** `(end − start) / start` of one instrument's closes; a zero first close
      raises ZeroDivisionError. */
  function SimpleReturn(closes: seq<real>): Result<real, Error>
    requires |closes| > 0
  {
    if closes[0] == 0.0 then Err(ZeroDivision)
    else Ok(Change(closes[0], closes[|closes| - 1]))
  }

  /** `change * weight`. */
  function Weighted(change: real, weight: real): real {
    change * weight
  }

  /** The `returns` list: weight·return for every zipped instrument with at
      least one bar, in instrument order. */
  function ReturnTerms(data: seq<seq<real>>, weights: seq<real>): Result<seq<real>, Error>
    decreases |data|
  {
    if data == [] || weights == [] then Ok([])
    else if data[0] == [] then ReturnTerms(data[1..], weights[1..])
    else match SimpleReturn(data[0])
      case Err(e) => Err(e)
      case Ok(v) => PrependOk([Weighted(v, weights[0])], ReturnTerms(data[1..], weights[1..]))
  }

  /** The daily returns one instrument contributes from bar `i` on:
      weight·(cᵢ − cᵢ₋₁)/cᵢ₋₁; a zero previous close raises. */
  function DailyFrom(closes: seq<real>, weight: real, i: nat): Result<seq<real>, Error>
    requires i >= 1
    decreases |closes| - i
  {
    if i >= |closes| then Ok([])
    else if closes[i - 1] == 0.0 then Err(ZeroDivision)
    else PrependOk([Weighted(Change(closes[i - 1], closes[i]), weight)], DailyFrom(closes, weight, i + 1))
  }

  /** The `daily_returns` list: each zipped instrument's daily returns, the
      instruments concatenated in order. */
  function DailyReturns(data: seq<seq<real>>, weights: seq<real>): Result<seq<real>, Error>
    decreases |data|
  {
    if data == [] || weights == [] then Ok([])
    else match DailyFrom(data[0], weights[0], 1)
      case Err(e) => Err(e)
      case Ok(ds) => PrependOk(ds, DailyReturns(data[1..], weights[1..]))
  }

  /** `total_return / volatility if volatility != 0 else 0`; a NaN volatility
      (fewer than two daily returns) makes the ratio NaN. */
  function Sharpe(total: real, volatility: Option<real>): (r: Option<real>)
    ensures volatility.None? <==> r.None?
    ensures volatility == Some(0.0) ==> r == Some(0.0)
    ensures volatility.Some? && volatility.value != 0.0 ==> r.value * volatility.value == total
  {
    match volatility
    case None => None
    case Some(v) => if v != 0.0 then Some(total / v) else Some(0.0)
  }

  datatype Performance = Performance(symbols: seq<string>, weights: seq<real>, totalReturn: real,
                                     volatility: Option<real>, sharpeRatio: Option<real>,
                                     dailyReturns: seq<real>)

  /** What `get_portfolio_performance` returns or raises. */
  function PerformanceOf(symbols: seq<string>, weights: Option<seq<real>>,
                         fetch: string -> Result<seq<real>, Error>,
                         sqrt: real -> real): (r: Result<Performance, Error>)
    ensures weights.None? && symbols == [] ==> r == Err(ZeroDivision)
    ensures r.Ok? ==> r.value.symbols == symbols && r.value.volatility == SampleStd(r.value.dailyReturns, sqrt)
  {
    var w := EffectiveWeights(|symbols|, weights);
    if w.Err? then Err(w.error)
    else
      var data := FetchAll(symbols, fetch);
      if data.Err? then Err(data.error)
      else
        var terms := ReturnTerms(data.value, w.value);
        var daily := DailyReturns(data.value, w.value);
        if terms.Err? then Err(terms.error)
        else if daily.Err? then Err(daily.error)
        else
          var total := Sum(terms.value);
          var vol := SampleStd(daily.value, sqrt);
          Ok(Performance(symbols, w.value, total, vol, Sharpe(total, vol), daily.value))
  }

  /** How many daily returns the zipped instruments contribute: len − 1 for
      each one with more than one bar. */
  function DailyCount(data: seq<seq<real>>, weights: seq<real>): nat
    decreases |data|
  {
    if data == [] || weights == [] then 0
    else (if |data[0]| > 1 then |data[0]| - 1 else 0) + DailyCount(data[1..], weights[1..])
  }

  lemma {:induction false} DailyFromShape(closes: seq<real>, weight: real, i: nat)
    requires i >= 1
    ensures var r := DailyFrom(closes, weight, i);
            (r.Ok? <==> forall j :: i - 1 <= j < |closes| - 1 ==> closes[j] != 0.0) &&
            (r.Err? ==> r.error == ZeroDivision) &&
            (r.Ok? ==> |r.value| == if i < |closes| then |closes| - i else 0)
    decreases |closes| - i
  {
    if i < |closes| {
      DailyFromShape(closes, weight, i + 1);
    }
  }

  /** The daily returns one instrument contributes from bar `i` on are its
      weighted changes from each close to the next, in bar order. */
  lemma {:induction false} DailyFromValues(closes: seq<real>, weight: real, i: nat)
    requires i >= 1 && DailyFrom(closes, weight, i).Ok?
    ensures |DailyFrom(closes, weight, i).value| == if i < |closes| then |closes| - i else 0
    ensures forall j :: i - 1 <= j < |closes| - 1 ==> closes[j] != 0.0
    ensures forall k :: 0 <= k < |DailyFrom(closes, weight, i).value| ==>
              DailyFrom(closes, weight, i).value[k] == Weighted(Change(closes[i - 1 + k], closes[i + k]), weight)
    decreases |closes| - i
  {
    if i < |closes| {
      DailyFromValues(closes, weight, i + 1);
      var rest := DailyFrom(closes, weight, i + 1).value;
      var r := DailyFrom(closes, weight, i).value;
      assert r == [Weighted(Change(closes[i - 1], closes[i]), weight)] + rest;
      forall k | 1 <= k < |r| ensures r[k] == Weighted(Change(closes[i - 1 + k], closes[i + k]), weight) {
        assert r[k] == rest[k - 1];
      }
    }
  }

  /** Each zipped instrument adds len − 1 daily returns (none with fewer
      than two bars), so the list has Σ (len − 1) entries. */
  lemma {:induction false} DailyReturnsCount(data: seq<seq<real>>, weights: seq<real>)
    requires DailyReturns(data, weights).Ok?
    ensures |DailyReturns(data, weights).value| == DailyCount(data, weights)
    decreases |data|
  {
    if data != [] && weights != [] {
      DailyFromShape(data[0], weights[0], 1);
      DailyReturnsCount(data[1..], weights[1..]);
    }
  }

  /** The closes the source divides by are non-zero: the first one (for the
      total return) and every one before the last (for the daily returns). */
  predicate Divisible(closes: seq<real>) {
    forall j :: 0 <= j < |closes| && (j == 0 || j < |closes| - 1) ==> closes[j] != 0.0
  }

  lemma {:induction false} ReturnTermsOkIff(data: seq<seq<real>>, weights: seq<real>)
    ensures var r := ReturnTerms(data, weights);
            (r.Ok? <==> forall i :: 0 <= i < Min(|data|, |weights|) && data[i] != [] ==> data[i][0] != 0.0) &&
            (r.Err? ==> r.error == ZeroDivision)
    decreases |data|
  {
    if data != [] && weights != [] {
      ReturnTermsOkIff(data[1..], weights[1..]);
      assert forall i :: 1 <= i < Min(|data|, |weights|) ==> data[1..][i - 1] == data[i];
    }
  }

  lemma {:induction false} DailyReturnsOkIff(data: seq<seq<real>>, weights: seq<real>)
    ensures var r := DailyReturns(data, weights);
            (r.Ok? <==> forall i, j :: 0 <= i < Min(|data|, |weights|) && 0 <= j < |data[i]| - 1 ==> data[i][j] != 0.0) &&
            (r.Err? ==> r.error == ZeroDivision)
    decreases |data|
  {
    if data != [] && weights != [] {
      DailyFromShape(data[0], weights[0], 1);
      DailyReturnsOkIff(data[1..], weights[1..]);
      assert forall i :: 1 <= i < Min(|data|, |weights|) ==> data[1..][i - 1] == data[i];
    }
  }

  /** Once the prices are fetched, the computation fails exactly when some
      zipped instrument has a zero close the source divides by, and then it
      raises ZeroDivisionError; otherwise `daily_returns` has Σ (len − 1)
      entries and `volatility` is their sample standard deviation. */
  lemma PerformanceFailsOnZeroClose(symbols: seq<string>, weights: Option<seq<real>>,
                                    fetch: string -> Result<seq<real>, Error>, sqrt: real -> real)
    requires EffectiveWeights(|symbols|, weights).Ok? && FetchAll(symbols, fetch).Ok?
    ensures var w, data := EffectiveWeights(|symbols|, weights).value, FetchAll(symbols, fetch).value;
            var r := PerformanceOf(symbols, weights, fetch, sqrt);
            && (r.Ok? <==> forall i :: 0 <= i < Min(|data|, |w|) ==> Divisible(data[i]))
            && (r.Err? ==> r.error == ZeroDivision)
            && (r.Ok? ==> |r.value.dailyReturns| == DailyCount(data, w))
  {
    var w, data := EffectiveWeights(|symbols|, weights).value, FetchAll(symbols, fetch).value;
    ReturnTermsOkIff(data, w);
    DailyReturnsOkIff(data, w);
    var r := PerformanceOf(symbols, weights, fetch, sqrt);
    if r.Ok? {
      DailyReturnsCount(data, w);
    }
    if forall i :: 0 <= i < Min(|data|, |w|) ==> Divisible(data[i]) {
      forall i, j | 0 <= i < Min(|data|, |w|) && 0 <= j < |data[i]| - 1 ensures data[i][j] != 0.0 {
        assert Divisible(data[i]);
      }
      forall i | 0 <= i < Min(|data|, |w|) && data[i] != [] ensures data[i][0] != 0.0 {
        assert Divisible(data[i]);
      }
    }
  }

  /** One instrument and the default weight 1: the total return is that
      instrument's (last − first) / first, the daily returns are its own
      changes from each close to the next, and the volatility is their
      sample standard deviation. */
  lemma SingleInstrumentReturn(symbol: string, fetch: string -> Result<seq<real>, Error>, sqrt: real -> real)
    requires fetch(symbol).Ok? && |fetch(symbol).value| > 0 && Divisible(fetch(symbol).value)
    ensures var closes := fetch(symbol).value;
            var r := PerformanceOf([symbol], None, fetch, sqrt);
            && r.Ok? && r.value.weights == [1.0]
            && r.value.totalReturn == Change(closes[0], closes[|closes| - 1])
            && |r.value.dailyReturns| == |closes| - 1
            && (forall i :: 0 <= i < |closes| - 1 ==>
                  closes[i] != 0.0 && r.value.dailyReturns[i] == Change(closes[i], closes[i + 1]))
            && r.value.volatility == SampleStd(r.value.dailyReturns, sqrt)
  {
    var closes := fetch(symbol).value;
    assert [symbol][1..] == [] && [closes] + [] == [closes];
    assert FetchAll([symbol], fetch) == Ok([closes]);
    DefaultWeightsSumToOne(1);
    var w := EffectiveWeights(1, None).value;
    assert w[0] == 1.0;
    assert w == [1.0];
    PerformanceFailsOnZeroClose([symbol], None, fetch, sqrt);
    var t := Weighted(Change(closes[0], closes[|closes| - 1]), 1.0);
    var data: seq<seq<real>>, ws: seq<real> := [closes], [1.0];
    assert data[1..] == [] && ws[1..] == [] && [t] + [] == [t];
    assert ReturnTerms([closes], [1.0]) == Ok([t]);
    assert Sum([Weighted(Change(closes[0], closes[|closes| - 1]), 1.0)]) ==
           Weighted(Change(closes[0], closes[|closes| - 1]), 1.0);
    var ds := DailyFrom(closes, 1.0, 1);
    assert ds.Ok?;
    DailyFromValues(closes, 1.0, 1);
    assert DailyReturns(data, ws) == PrependOk(ds.value, Ok([]));
    assert ds.value + [] == ds.value;
  }

  /** Every close equals the first, which is not zero. */
  predicate Steady(closes: seq<real>) {
    forall j :: 0 <= j < |closes| ==> closes[j] == closes[0] != 0.0
  }

  lemma {:induction false} SteadyDailyZero(closes: seq<real>, weight: real, i: nat)
    requires i >= 1 && Steady(closes)
    ensures DailyFrom(closes, weight, i).Ok? && Flat(DailyFrom(closes, weight, i).value, 0.0)
    decreases |closes| - i
  {
    if i < |closes| {
      SteadyDailyZero(closes, weight, i + 1);
      assert Change(closes[i - 1], closes[i]) == 0.0;
    }
  }

  lemma {:induction false} SteadyTermsZero(data: seq<seq<real>>, weights: seq<real>)
    requires forall i :: 0 <= i < |data| ==> Steady(data[i])
    ensures ReturnTerms(data, weights).Ok? && Flat(ReturnTerms(data, weights).value, 0.0)
    ensures DailyReturns(data, weights).Ok? && Flat(DailyReturns(data, weights).value, 0.0)
    decreases |data|
  {
    if data != [] && weights != [] {
      SteadyTermsZero(data[1..], weights[1..]);
      SteadyDailyZero(data[0], weights[0], 1);
      if data[0] != [] {
        assert Change(data[0][0], data[0][|data[0]| - 1]) == 0.0;
      }
    }
  }

  /** A portfolio whose prices never move: total return 0, every daily
      return 0, and with at least two daily returns a volatility of 0 and so,
      by the source's zero guard, a Sharpe ratio of 0. */
  lemma SteadyPortfolio(symbols: seq<string>, weights: Option<seq<real>>,
                        fetch: string -> Result<seq<real>, Error>, sqrt: real -> real)
    requires EffectiveWeights(|symbols|, weights).Ok?
    requires forall i :: 0 <= i < |symbols| ==> fetch(symbols[i]).Ok? && Steady(fetch(symbols[i]).value)
    requires sqrt(0.0) == 0.0
    ensures var r := PerformanceOf(symbols, weights, fetch, sqrt);
            && r.Ok? && r.value.totalReturn == 0.0 && Flat(r.value.dailyReturns, 0.0)
            && (|r.value.dailyReturns| >= 2 ==>
                  r.value.volatility == Some(0.0) && r.value.sharpeRatio == Some(0.0))
  {
    var w, data := EffectiveWeights(|symbols|, weights).value, FetchAll(symbols, fetch).value;
    SteadyTermsZero(data, w);
    SumWithin(ReturnTerms(data, w).value, 0.0, 0.0);
    var daily := DailyReturns(data, w).value;
    if |daily| >= 2 {
      VarianceOfFlat(daily, 0.0);
    }
  }

  /** The loop that builds `returns`: for each zipped pair with at least one
      bar, append weight·(last − first)/first. */
  method CollectReturns(data: seq<seq<real>>, w: seq<real>) returns (r: Result<seq<real>, Error>)
    ensures r == ReturnTerms(data, w)
  {
    var m := Min(|data|, |w|);
    var weighted: seq<real> := [];
    assert data[0..] == data && w[0..] == w;
    PrependNothing(ReturnTerms(data, w));
    for k := 0 to m
      invariant ReturnTerms(data, w) == PrependOk(weighted, ReturnTerms(data[k..], w[k..]))
    {
      assert data[k..][1..] == data[k + 1..] && w[k..][1..] == w[k + 1..];
      var closes := data[k];
      assert data[k..][0] == closes;
      if |closes| > 0 {
        var startPrice := closes[0];
        var endPrice := closes[|closes| - 1];
        if startPrice == 0.0 {
          return Err(ZeroDivision);
        }
        var stockReturn := Change(startPrice, endPrice);
        assert data[k..][0] == closes && w[k..][0] == w[k];
        assert SimpleReturn(closes) == Ok(stockReturn);
        assert ReturnTerms(data[k..], w[k..]) ==
               PrependOk([Weighted(stockReturn, w[k])], ReturnTerms(data[k + 1..], w[k + 1..]));
        PrependTwice(weighted, [Weighted(stockReturn, w[k])], ReturnTerms(data[k + 1..], w[k + 1..]));
        weighted := weighted + [Weighted(stockReturn, w[k])];
      }
    }
    assert data[m..] == [] || w[m..] == [];
    assert weighted + [] == weighted;
    return Ok(weighted);
  }

  /** The inner loop over one instrument's bars 1..len−1, appending
      weight·(cᵢ − cᵢ₋₁)/cᵢ₋₁ to `daily`. */
  method AppendDaily(daily: seq<real>, closes: seq<real>, weight: real) returns (r: Result<seq<real>, Error>)
    requires |closes| > 1
    ensures r == PrependOk(daily, DailyFrom(closes, weight, 1))
  {
    var out := daily;
    PrependNothing(DailyFrom(closes, weight, 1));
    assert daily + [] == daily;
    for i := 1 to |closes|
      invariant PrependOk(daily, DailyFrom(closes, weight, 1)) == PrependOk(out, DailyFrom(closes, weight, i))
    {
      var prevPrice := closes[i - 1];
      var currPrice := closes[i];
      if prevPrice == 0.0 {
        return Err(ZeroDivision);
      }
      var dailyReturn := Change(prevPrice, currPrice);
      assert DailyFrom(closes, weight, i) ==
             PrependOk([Weighted(dailyReturn, weight)], DailyFrom(closes, weight, i + 1));
      PrependTwice(out, [Weighted(dailyReturn, weight)], DailyFrom(closes, weight, i + 1));
      out := out + [Weighted(dailyReturn, weight)];
    }
    assert out + [] == out;
    return Ok(out);
  }

  /** The nested loop that builds `daily_returns`: instruments in zip order,
      each with more than one bar contributing its daily returns. */
  method CollectDaily(data: seq<seq<real>>, w: seq<real>) returns (r: Result<seq<real>, Error>)
    ensures r == DailyReturns(data, w)
  {
    var m := Min(|data|, |w|);
    var daily: seq<real> := [];
    assert data[0..] == data && w[0..] == w;
    PrependNothing(DailyReturns(data, w));
    for k := 0 to m
      invariant DailyReturns(data, w) == PrependOk(daily, DailyReturns(data[k..], w[k..]))
    {
      assert data[k..][1..] == data[k + 1..] && w[k..][1..] == w[k + 1..];
      var closes := data[k];
      var rest := DailyReturns(data[k + 1..], w[k + 1..]);
      if |closes| > 1 {
        var next := AppendDaily(daily, closes, w[k]);
        if next.Err? {
          return Err(next.error);
        }
        PrependTwice(daily, next.value[|daily|..], rest);
        assert daily + next.value[|daily|..] == next.value;
        daily := next.value;
      } else {
        assert DailyFrom(closes, w[k], 1) == Ok([]);
        PrependTwice(daily, [], rest);
        assert daily + [] == daily;
      }
    }
    assert data[m..] == [] || w[m..] == [];
    assert daily + [] == daily;
    return Ok(daily);
  }

  /** `get_portfolio_performance`: fetch every instrument's closes, then the
      returns loop, the daily-returns loop, the standard deviation of the
      daily returns and the Sharpe ratio. */
  method PortfolioPerformance(symbols: seq<string>, weights: Option<seq<real>>,
                              fetch: string -> Result<seq<real>, Error>,
                              sqrt: real -> real) returns (r: Result<Performance, Error>)
    ensures r == PerformanceOf(symbols, weights, fetch, sqrt)
  {
    var w := EffectiveWeights(|symbols|, weights);
    if w.Err? {
      return Err(w.error);
    }
    var portfolioData := FetchEach(symbols, fetch);
    if portfolioData.Err? {
      return Err(portfolioData.error);
    }
    var weighted := CollectReturns(portfolioData.value, w.value);
    if weighted.Err? {
      return Err(weighted.error);
    }
    var daily := CollectDaily(portfolioData.value, w.value);
    if daily.Err? {
      return Err(daily.error);
    }
    var total := Sum(weighted.value);
    var volatility := SampleStd(daily.value, sqrt);
    r := Ok(Performance(symbols, w.value, total, volatility, Sharpe(total, volatility), daily.value));
  }
}
