/** `DataJobs` of backend/services/data_jobs.py, the older variant: the same
    refresh steps, but `run_daily_jobs` hands the cached list itself to the
    price and info refreshes, so each item of the list is used as a symbol,
    its key built from `str(item)`. */
module LegacyDataJobs {
  import opened Wrappers
  import opened JsonValue
  import opened FileCache
  import opened BatchRefresh
  import AppDataJobs

  /** The symbols `for symbol in stock_list` visits, as the text each key is
      built from: the items of a list, the characters of a string, the names
      of a dict; a value that cannot be iterated raises TypeError before the
      first price is fetched. */
  function RawSymbols(stockList: Json, show: Json -> string): (r: Result<seq<string>, Error>)
    ensures r.Err? <==> stockList.JNull? || stockList.JBool? || stockList.JNum?
    ensures r.Err? ==> r.error == TypeError
    ensures stockList.JList? ==>
              && r.Ok? && |r.value| == |stockList.items|
              && forall i :: 0 <= i < |r.value| ==> r.value[i] == Text(stockList.items[i], show)
    ensures stockList.JStr? ==>
              && r.Ok? && |r.value| == |stockList.s|
              && forall i :: 0 <= i < |r.value| ==> r.value[i] == [stockList.s[i]]
    ensures stockList.JObject? ==>
              && r.Ok? && |r.value| == |stockList.fields|
              && forall i :: 0 <= i < |r.value| ==> r.value[i] == stockList.fields[i].0
  {
    var items := Items(stockList);
    if items.Err? then Err(items.error)
    else Ok(seq(|items.value|, i requires 0 <= i < |items.value| => Text(items.value[i], show)))
  }

  /** The two variants read the same cached list differently. A list of
      plain symbols is used as it is here, while the newer variant fails on
      it, since a string has no `.get`. A list of records is used here as
      the text of each whole record, while the newer variant takes each
      record's `symbol`. */
  lemma VariantsDiffer(symbols: seq<string>, records: seq<seq<(string, Json)>>, show: Json -> string)
    requires |symbols| > 0
    requires forall i :: 0 <= i < |records| ==>
               Get(records[i], "symbol").Some? && Truthy(Get(records[i], "symbol").value)
    ensures var plain := JList(seq(|symbols|, i requires 0 <= i < |symbols| => JStr(symbols[i])));
            RawSymbols(plain, show) == Ok(symbols) &&
            AppDataJobs.ListedSymbols(plain, show) == Err(AttributeError)
    ensures var listed := JList(seq(|records|, i requires 0 <= i < |records| => JObject(records[i])));
            var raw := RawSymbols(listed, show).value;
            var app := AppDataJobs.ListedSymbols(listed, show);
            && app.Ok? && |raw| == |app.value| == |records|
            && forall i :: 0 <= i < |records| ==>
                 raw[i] == show(JObject(records[i])) && app.value[i] == Text(Get(records[i], "symbol").value, show)
  {
    var plain := JList(seq(|symbols|, i requires 0 <= i < |symbols| => JStr(symbols[i])));
    assert !plain.items[0].JObject?;
    var raw := RawSymbols(plain, show).value;
    assert forall i :: 0 <= i < |symbols| ==> raw[i] == symbols[i];
    assert raw == symbols;
    assert AppDataJobs.SymbolFields(plain.items, show).Err?;
    var listed := JList(seq(|records|, i requires 0 <= i < |records| => JObject(records[i])));
    AppDataJobs.SymbolsInListOrder(listed.items, show);
  }

  /** The batch object, holding the cache manager it writes through. */
  class DataJobs {
    const cache: CacheManager

    constructor (cache: CacheManager)
      ensures this.cache == cache
    {
      this.cache := cache;
    }

    /** `update_stock_prices(symbols)`: `fetchPrice` stands for the service's
        file-cached price query over the batch's date range. */
    method UpdateStockPrices(symbols: seq<string>, fetchPrice: Fetches,
                             now: int, format: int -> string, faults: Faults)
      modifies cache
      ensures cache.files == RefreshAll(old(cache.files), PricePrefix, symbols, fetchPrice, format(now), faults)
    {
      RefreshEach(cache, PricePrefix, symbols, fetchPrice, now, format, faults);
    }

    /** `update_stock_list()`: never raises. */
    method UpdateStockList(fetched: Result<Json, Error>, now: int, format: int -> string,
                           fault: WriteFault)
      modifies cache
      ensures cache.files == Touched(old(cache.files), ListKey, fetched, format(now), fault)
    {
      if fetched.Ok? {
        var _ := cache.Set(ListKey, fetched.value, now, format, fault);
      }
    }

    /** `update_stock_info(symbols)`. */
    method UpdateStockInfo(symbols: seq<string>, fetchInfo: Fetches,
                           now: int, format: int -> string, faults: Faults)
      modifies cache
      ensures cache.files == RefreshAll(old(cache.files), InfoPrefix, symbols, fetchInfo, format(now), faults)
    {
      RefreshEach(cache, InfoPrefix, symbols, fetchInfo, now, format, faults);
    }

    /** `run_daily_jobs()`; an exception that escapes is raised again. */
    method RunDailyJobs(listFetched: Result<Json, Error>, listFault: WriteFault, fetchPrice: Fetches,
                        fetchInfo: Fetches, now: int, format: int -> string,
                        parse: string -> Option<int>, show: Json -> string, faults: Faults)
      returns (r: Outcome<Error>)
      modifies cache
      ensures (r, cache.files) ==
              DailyRun(old(cache.files), listFetched, listFault, j => RawSymbols(j, show),
                       fetchPrice, fetchInfo, now, format, parse, faults)
    {
      UpdateStockList(listFetched, now, format, listFault);
      var stockList := cache.Get(ListKey, DefaultMaxAgeHours, now, parse);
      if stockList.None? || !Truthy(stockList.value) {
        return Pass;
      }
      var symbols := RawSymbols(stockList.value, show);
      if symbols.Err? {
        return Fail(symbols.error);
      }
      UpdateStockPrices(symbols.value, fetchPrice, now, format, faults);
      UpdateStockInfo(symbols.value, fetchInfo, now, format, faults);
      r := Pass;
    }
  }
}
