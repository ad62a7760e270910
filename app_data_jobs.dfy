/** `DataJobs` of backend/app/services/data_jobs.py: refreshes the cached
    stock list, then the cached prices and company info of every symbol the
    list names. The provider is given as what it returns or raises per call;
    the clock is one reading for the whole batch. */
module AppDataJobs {
  import opened Wrappers
  import opened JsonValue
  import opened FileCache
  import opened BatchRefresh

  /** An item of the stock list naming a symbol: a dict whose `symbol` is
      truthy, with `s` the text of that symbol. */
  predicate Names(item: Json, show: Json -> string, s: string) {
    && item.JObject?
    && var symbol := Get(item.fields, "symbol");
    && symbol.Some? && Truthy(symbol.value) && Text(symbol.value, show) == s
  }

  /** `[item.get('symbol') for item in items if item.get('symbol')]`, each
      kept symbol as the text its key is built from; an item that is not a
      dict has no `.get` and raises AttributeError. */
  function SymbolFields(items: seq<Json>, show: Json -> string): (r: Result<seq<string>, Error>)
    ensures r.Err? <==> exists i :: 0 <= i < |items| && !items[i].JObject?
    ensures r.Err? ==> r.error == AttributeError
    ensures r.Ok? ==> |r.value| <= |items|
    ensures r.Ok? ==> forall s :: s in r.value <==> exists i :: 0 <= i < |items| && Names(items[i], show, s)
    decreases |items|
  {
    if items == [] then Ok([])
    else if !items[0].JObject? then Err(AttributeError)
    else
      var rest := SymbolFields(items[1..], show);
      assert forall i :: 1 <= i < |items| ==> items[1..][i - 1] == items[i];
      var symbol := Get(items[0].fields, "symbol");
      if rest.Err? then rest
      else if symbol.Some? && Truthy(symbol.value) then Ok([Text(symbol.value, show)] + rest.value)
      else rest
  }

  /** The symbols `run_daily_jobs` derives from the list read back: iterating
      a number or a boolean raises TypeError; a non-empty string or dict
      yields strings, which have no `.get`, so it raises AttributeError. */
  function ListedSymbols(stockList: Json, show: Json -> string): (r: Result<seq<string>, Error>)
    ensures stockList.JNull? || stockList.JBool? || stockList.JNum? ==> r == Err(TypeError)
    ensures stockList.JList? ==> r == SymbolFields(stockList.items, show)
    ensures (stockList.JStr? && stockList.s != []) || (stockList.JObject? && stockList.fields != []) ==>
              r == Err(AttributeError)
    ensures (stockList.JStr? && stockList.s == []) || (stockList.JObject? && stockList.fields == []) ==>
              r == Ok([])
  {
    var items := Items(stockList);
    if items.Err? then Err(items.error)
    else
      assert stockList.JStr? || stockList.JObject? ==> forall i :: 0 <= i < |items.value| ==> items.value[i].JStr?;
      SymbolFields(items.value, show)
  }

  /** Filtering distributes over concatenation: the symbols of `a + b` are
      those of `a` followed by those of `b`, so the kept symbols stay in list
      order with their repeats. */
  lemma {:induction false} SymbolFieldsConcat(a: seq<Json>, b: seq<Json>, show: Json -> string)
    ensures var r := SymbolFields(a + b, show);
            && (r.Err? <==> SymbolFields(a, show).Err? || SymbolFields(b, show).Err?)
            && (r.Ok? ==> r.value == SymbolFields(a, show).value + SymbolFields(b, show).value)
    decreases |a|
  {
    if a == [] {
      assert a + b == b;
    } else {
      assert (a + b)[0] == a[0] && (a + b)[1..] == a[1..] + b;
      SymbolFieldsConcat(a[1..], b, show);
    }
  }

  /** One item alone: a dict naming a symbol gives that symbol, any other
      dict gives nothing, and anything else raises AttributeError. */
  lemma SymbolFieldsOfOne(item: Json, show: Json -> string)
    ensures item.JObject? && Get(item.fields, "symbol").Some? && Truthy(Get(item.fields, "symbol").value) ==>
              SymbolFields([item], show) == Ok([SymbolText(item, show)])
    ensures item.JObject? && !(Get(item.fields, "symbol").Some? && Truthy(Get(item.fields, "symbol").value)) ==>
              SymbolFields([item], show) == Ok([])
    ensures !item.JObject? ==> SymbolFields([item], show) == Err(AttributeError)
  {
    var items := [item];
    assert items[0] == item && items[1..] == [];
    assert SymbolFields(items[1..], show) == Ok([]);
    if item.JObject? && !(Get(item.fields, "symbol").Some? && Truthy(Get(item.fields, "symbol").value)) {
      assert SymbolFields(items, show) == SymbolFields(items[1..], show);
    } else if item.JObject? {
      assert [SymbolText(item, show)] + [] == [SymbolText(item, show)];
    }
  }

  /** The symbol of an item that names one. */
  function SymbolText(item: Json, show: Json -> string): string
    requires item.JObject? && Get(item.fields, "symbol").Some?
  {
    Text(Get(item.fields, "symbol").value, show)
  }

  /** When every item is a dict with a truthy symbol, the symbols are those
      of the items, one each and in list order. */
  lemma {:induction false} SymbolsInListOrder(items: seq<Json>, show: Json -> string)
    requires forall i :: 0 <= i < |items| ==>
               items[i].JObject? && Get(items[i].fields, "symbol").Some? &&
               Truthy(Get(items[i].fields, "symbol").value)
    ensures var r := SymbolFields(items, show);
            && r.Ok? && |r.value| == |items|
            && forall i :: 0 <= i < |items| ==> r.value[i] == SymbolText(items[i], show)
    decreases |items|
  {
    if items != [] {
      SymbolsInListOrder(items[1..], show);
      var rest := SymbolFields(items[1..], show);
      assert SymbolFields(items, show) == Ok([SymbolText(items[0], show)] + rest.value);
      assert forall i :: 1 <= i < |items| ==> items[1..][i - 1] == items[i];
    }
  }

  /** The batch object, holding the cache manager it writes through. */
  class DataJobs {
    const cache: CacheManager

    constructor (cache: CacheManager)
      ensures this.cache == cache
    {
      this.cache := cache;
    }

    /** `update_stock_prices(symbols)`: `fetchPrice` stands for the service's
        price query over the batch's date range. */
    method UpdateStockPrices(symbols: seq<string>, fetchPrice: Fetches,
                             now: int, format: int -> string, faults: Faults)
      modifies cache
      ensures cache.files == RefreshAll(old(cache.files), PricePrefix, symbols, fetchPrice, format(now), faults)
    {
      RefreshEach(cache, PricePrefix, symbols, fetchPrice, now, format, faults);
    }

    /** `update_stock_list()`: never raises. */
    method UpdateStockList(fetched: Result<Json, Error>, now: int, format: int -> string,
                           fault: WriteFault)
      modifies cache
      ensures cache.files == Touched(old(cache.files), ListKey, fetched, format(now), fault)
    {
      if fetched.Ok? {
        var _ := cache.Set(ListKey, fetched.value, now, format, fault);
      }
    }

    /** `update_stock_info(symbols)`. */
    method UpdateStockInfo(symbols: seq<string>, fetchInfo: Fetches,
                           now: int, format: int -> string, faults: Faults)
      modifies cache
      ensures cache.files == RefreshAll(old(cache.files), InfoPrefix, symbols, fetchInfo, format(now), faults)
    {
      RefreshEach(cache, InfoPrefix, symbols, fetchInfo, now, format, faults);
    }

    /** `run_daily_jobs()`; an exception that escapes is raised again. */
    method RunDailyJobs(listFetched: Result<Json, Error>, listFault: WriteFault, fetchPrice: Fetches,
                        fetchInfo: Fetches, now: int, format: int -> string,
                        parse: string -> Option<int>, show: Json -> string, faults: Faults)
      returns (r: Outcome<Error>)
      modifies cache
      ensures (r, cache.files) ==
              DailyRun(old(cache.files), listFetched, listFault, j => ListedSymbols(j, show),
                       fetchPrice, fetchInfo, now, format, parse, faults)
    {
      UpdateStockList(listFetched, now, format, listFault);
      var stockList := cache.Get(ListKey, DefaultMaxAgeHours, now, parse);
      if stockList.None? || !Truthy(stockList.value) {
        return Pass;
      }
      var symbols := ListedSymbols(stockList.value, show);
      if symbols.Err? {
        return Fail(symbols.error);
      }
      UpdateStockPrices(symbols.value, fetchPrice, now, format, faults);
      UpdateStockInfo(symbols.value, fetchInfo, now, format, faults);
      r := Pass;
    }
  }
}
