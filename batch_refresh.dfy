/** The refresh loop both `DataJobs` classes run over a `CacheManager`: for
    each symbol in turn, fetch its data and `set` it under a prefixed key,
    logging and skipping any failure; and the daily run that refreshes the
    stock list, reads it back and refreshes prices, then company info. */
module BatchRefresh {
  import opened Wrappers
  import opened JsonValue
  import opened FileCache

  const ListKey: string := "stock_list"
  const PricePrefix: string := "price_"
  const InfoPrefix: string := "info_"

  /** The content of one file of the directory, if present. */
  function Lookup(files: Directory, name: string): Option<FileContent> {
    if name in files then Some(files[name]) else None
  }

  /** One guarded step, `try: set(key, fetch()) except: log`: a failed fetch
      writes nothing; a failed `set` is swallowed, leaving what the failed
      write left behind. */
  function Touched(files: Directory, key: string, fetched: Result<Json, Error>, stamp: string,
                   fault: WriteFault): (r: Directory)
    ensures forall n :: n != FileName(key) ==> Lookup(r, n) == Lookup(files, n)
    ensures fetched.Err? || fault == OpenFails ==> r == files
    ensures fetched.Ok? && fault == NoFault ==> Lookup(r, FileName(key)) == Some(Document(Envelope(fetched.value, stamp)))
    ensures fetched.Ok? && fault == WriteFails ==> Lookup(r, FileName(key)) == Some(Unreadable)
  {
    if fetched.Err? then files else Written(files, key, fetched.value, stamp, fault)
  }

  /** What the provider answers during one refresh loop: the call made at
      position `i` of the loop, for symbol `s`, gets `fetch(i, s)`, so a
      symbol listed twice is asked twice and may get two different answers. */
  type Fetches = (nat, string) -> Result<Json, Error>

  /** How the writes of one refresh loop go: the `set` made at position `i`
      for key `k` fares as `faults(i, k)`. */
  type Faults = (nat, string) -> WriteFault

  /** The directory after the guarded step at each position of `symbols`,
      in order. */
  function RefreshAll(files: Directory, prefix: string, symbols: seq<string>,
                      fetch: Fetches, stamp: string, faults: Faults): Directory
    decreases |symbols|
  {
    if symbols == [] then files
    else
      var i := |symbols| - 1;
      var key := prefix + symbols[i];
      Touched(RefreshAll(files, prefix, symbols[..i], fetch, stamp, faults), key, fetch(i, symbols[i]), stamp, faults(i, key))
  }

  lemma PrefixedFileNames(prefix: string, s1: string, s2: string)
    ensures FileName(prefix + s1) == FileName(prefix + s2) <==> s1 == s2
  {
    FileNameInjective(prefix + s1, prefix + s2);
    assert (prefix + s1)[|prefix|..] == s1 && (prefix + s2)[|prefix|..] == s2;
  }

  /** A name the refresh of `symbols` under `prefix` writes to. */
  predicate Target(prefix: string, symbols: seq<string>, name: string) {
    exists s :: s in symbols && name == FileName(prefix + s)
  }

  /** A refresh writes only the files of its own symbols. */
  lemma {:induction false} RefreshOthers(files: Directory, prefix: string, symbols: seq<string>,
                                         fetch: Fetches, stamp: string, faults: Faults)
    ensures forall n :: !Target(prefix, symbols, n) ==>
              Lookup(RefreshAll(files, prefix, symbols, fetch, stamp, faults), n) == Lookup(files, n)
    decreases |symbols|
  {
    if symbols != [] {
      var i := |symbols| - 1;
      var init := symbols[..i];
      RefreshOthers(files, prefix, init, fetch, stamp, faults);
      forall n | !Target(prefix, symbols, n)
        ensures Lookup(RefreshAll(files, prefix, symbols, fetch, stamp, faults), n) == Lookup(files, n)
      {
        assert !Target(prefix, init, n) by {
          forall s | s in init ensures n != FileName(prefix + s) {
            assert s in symbols;
          }
        }
        assert symbols[i] in symbols;
      }
    }
  }

  /** Nothing after the last visit of a symbol touches its file. */
  lemma {:induction false} LastVisitDecides(files: Directory, prefix: string, symbols: seq<string>,
                                            fetch: Fetches, stamp: string, faults: Faults, i: nat)
    requires i < |symbols| && symbols[i] !in symbols[i + 1..]
    ensures var name := FileName(prefix + symbols[i]);
            Lookup(RefreshAll(files, prefix, symbols, fetch, stamp, faults), name) ==
            Lookup(RefreshAll(files, prefix, symbols[..i + 1], fetch, stamp, faults), name)
    decreases |symbols|
  {
    var last := |symbols| - 1;
    if i < last {
      var init := symbols[..last];
      assert init[i] == symbols[i];
      assert symbols[i] !in init[i + 1..] by {
        forall k | i + 1 <= k < last ensures init[k] != symbols[i] {
          assert init[k] == symbols[i + 1..][k - i - 1];
        }
      }
      LastVisitDecides(files, prefix, init, fetch, stamp, faults, i);
      assert init[..i + 1] == symbols[..i + 1];
      assert symbols[last] == symbols[i + 1..][last - i - 1];
      PrefixedFileNames(prefix, symbols[i], symbols[last]);
    } else {
      assert symbols[..i + 1] == symbols;
    }
  }

  /** The effect of a whole refresh on one symbol's file, taken at the
      symbol's last visit `i`: a visit whose fetch or open fails leaves the
      file as the earlier visits left it; any other visit decides the file
      whatever came before (a later failed write spoils a good earlier
      file); and a symbol visited only once ends as its own guarded step
      leaves it, whatever the other symbols did. */
  lemma RefreshEffect(files: Directory, prefix: string, symbols: seq<string>,
                      fetch: Fetches, stamp: string, faults: Faults, i: nat)
    requires i < |symbols| && symbols[i] !in symbols[i + 1..]
    ensures var s, key := symbols[i], prefix + symbols[i];
            var r := RefreshAll(files, prefix, symbols, fetch, stamp, faults);
            && (fetch(i, s).Err? || faults(i, key) == OpenFails ==>
                  Lookup(r, FileName(key)) == Lookup(RefreshAll(files, prefix, symbols[..i], fetch, stamp, faults), FileName(key)))
            && (fetch(i, s).Ok? && faults(i, key) != OpenFails ==>
                  Lookup(r, FileName(key)) == Lookup(Touched(files, key, fetch(i, s), stamp, faults(i, key)), FileName(key)))
            && (s !in symbols[..i] ==>
                  Lookup(r, FileName(key)) == Lookup(Touched(files, key, fetch(i, s), stamp, faults(i, key)), FileName(key)))
  {
    var s, key := symbols[i], prefix + symbols[i];
    LastVisitDecides(files, prefix, symbols, fetch, stamp, faults, i);
    var upto := symbols[..i + 1];
    assert upto[..i] == symbols[..i] && upto[i] == s;
    var before := RefreshAll(files, prefix, symbols[..i], fetch, stamp, faults);
    assert RefreshAll(files, prefix, upto, fetch, stamp, faults) == Touched(before, key, fetch(i, s), stamp, faults(i, key));
    if s !in symbols[..i] {
      RefreshOthers(files, prefix, symbols[..i], fetch, stamp, faults);
      assert !Target(prefix, symbols[..i], FileName(key)) by {
        forall s' | s' in symbols[..i] ensures FileName(key) != FileName(prefix + s') {
          PrefixedFileNames(prefix, s, s');
        }
      }
    }
  }

  /** What a refresh stores: a symbol whose last visit fetches and writes
      successfully has that visit's data under `prefix + symbol`, and a
      symbol visited once whose fetch fails keeps the file it had. */
  lemma RefreshStores(files: Directory, prefix: string, symbols: seq<string>,
                      fetch: Fetches, stamp: string, faults: Faults, i: nat)
    requires i < |symbols| && symbols[i] !in symbols[i + 1..]
    ensures var s, key := symbols[i], prefix + symbols[i];
            var r := RefreshAll(files, prefix, symbols, fetch, stamp, faults);
            && (fetch(i, s).Ok? && faults(i, key) == NoFault ==>
                  Lookup(r, FileName(key)) == Some(Document(Envelope(fetch(i, s).value, stamp))))
            && (fetch(i, s).Err? && s !in symbols[..i] ==> Lookup(r, FileName(key)) == Lookup(files, FileName(key)))
  {
    RefreshEffect(files, prefix, symbols, fetch, stamp, faults, i);
  }

  /** The directory after both refreshes of a run that got its symbols. */
  function Refreshed(listed: Directory, symbols: seq<string>, fetchPrice: Fetches, fetchInfo: Fetches,
                     stamp: string, faults: Faults): Directory
  {
    RefreshAll(RefreshAll(listed, PricePrefix, symbols, fetchPrice, stamp, faults), InfoPrefix, symbols, fetchInfo, stamp, faults)
  }

  /** `run_daily_jobs`, given what the provider returns for the list and on
      each call of the price and info loops, how each write goes, the one
      clock reading the batch uses, and `symbolsOf`, which turns the list
      read back from the cache into symbols or raises. It refreshes the list
      (swallowing any failure), reads it back with the default age limit and
      stops when that gives nothing truthy; a failure to derive the symbols
      is raised; otherwise all prices are refreshed, then all info. */
  function DailyRun(files: Directory, listFetched: Result<Json, Error>, listFault: WriteFault,
                    symbolsOf: Json -> Result<seq<string>, Error>, fetchPrice: Fetches, fetchInfo: Fetches,
                    now: int, format: int -> string, parse: string -> Option<int>,
                    faults: Faults): (Outcome<Error>, Directory)
  {
    var stamp := format(now);
    var listed := Touched(files, ListKey, listFetched, stamp, listFault);
    var stockList := Read(listed, ListKey, DefaultMaxAgeHours, now, parse);
    if stockList.None? || !Truthy(stockList.value) then (Pass, listed)
    else
      var symbols := symbolsOf(stockList.value);
      if symbols.Err? then (Fail(symbols.error), listed)
      else
        (Pass, Refreshed(listed, symbols.value, fetchPrice, fetchInfo, stamp, faults))
  }

  lemma ListNotTarget(prefix: string, symbols: seq<string>)
    requires prefix == PricePrefix || prefix == InfoPrefix
    ensures !Target(prefix, symbols, FileName(ListKey))
  {
    forall s | s in symbols ensures FileName(ListKey) != FileName(prefix + s) {
      assert FileName(ListKey)[0] == 's' != (prefix + s)[0] == FileName(prefix + s)[0];
    }
  }

  /** The early exits: when the list read back is missing, stale, malformed
      or empty, nothing but the list refresh has written; when the symbols
      cannot be derived from it, that exception is raised, again after the
      list refresh alone. */
  lemma DailyRunExitsEarly(files: Directory, listFetched: Result<Json, Error>, listFault: WriteFault,
                           symbolsOf: Json -> Result<seq<string>, Error>, fetchPrice: Fetches, fetchInfo: Fetches,
                           now: int, format: int -> string, parse: string -> Option<int>, faults: Faults)
    ensures var listed := Touched(files, ListKey, listFetched, format(now), listFault);
            var back := Read(listed, ListKey, DefaultMaxAgeHours, now, parse);
            var run := DailyRun(files, listFetched, listFault, symbolsOf, fetchPrice, fetchInfo, now, format, parse, faults);
            && (back.None? || !Truthy(back.value) ==> run == (Pass, listed))
            && (back.Some? && Truthy(back.value) && symbolsOf(back.value).Err? ==>
                  run == (Fail(symbolsOf(back.value).error), listed))
  {
  }

  /** A run whose read-back list gives symbols succeeds, and its directory
      is the list refresh followed by the price refresh, then the info
      refresh, over those symbols. */
  lemma DailyRunProceeds(files: Directory, listFetched: Result<Json, Error>, listFault: WriteFault,
                         symbolsOf: Json -> Result<seq<string>, Error>, fetchPrice: Fetches, fetchInfo: Fetches,
                         now: int, format: int -> string, parse: string -> Option<int>, faults: Faults,
                         symbols: seq<string>)
    requires var listed := Touched(files, ListKey, listFetched, format(now), listFault);
             var back := Read(listed, ListKey, DefaultMaxAgeHours, now, parse);
             back.Some? && Truthy(back.value) && symbolsOf(back.value) == Ok(symbols)
    ensures DailyRun(files, listFetched, listFault, symbolsOf, fetchPrice, fetchInfo, now, format, parse, faults) ==
            (Pass, Refreshed(Touched(files, ListKey, listFetched, format(now), listFault), symbols,
                             fetchPrice, fetchInfo, format(now), faults))
  {
  }

  /** The refreshes never touch the list: after a run the list reads back
      as the fetched one when it was written whole, reads as absent when its
      write broke off, and as the cached one when fetching it failed or its
      file could not be opened. */
  lemma RefreshKeepsList(files: Directory, listFetched: Result<Json, Error>, listFault: WriteFault,
                         symbols: seq<string>, fetchPrice: Fetches, fetchInfo: Fetches, now: int,
                         format: int -> string, parse: string -> Option<int>, faults: Faults)
    requires parse(format(now)) == Some(now)
    ensures var listed := Touched(files, ListKey, listFetched, format(now), listFault);
            var after := Refreshed(listed, symbols, fetchPrice, fetchInfo, format(now), faults);
            Read(after, ListKey, DefaultMaxAgeHours, now, parse) ==
              if listFetched.Ok? && listFault == NoFault && listFetched.value != JNull then Some(listFetched.value)
              else if listFetched.Ok? && listFault != OpenFails then None
              else Read(files, ListKey, DefaultMaxAgeHours, now, parse)
  {
    var stamp := format(now);
    var listed := Touched(files, ListKey, listFetched, stamp, listFault);
    var priced := RefreshAll(listed, PricePrefix, symbols, fetchPrice, stamp, faults);
    var after := RefreshAll(priced, InfoPrefix, symbols, fetchInfo, stamp, faults);
    RefreshOthers(listed, PricePrefix, symbols, fetchPrice, stamp, faults);
    RefreshOthers(priced, InfoPrefix, symbols, fetchInfo, stamp, faults);
    ListNotTarget(PricePrefix, symbols);
    ListNotTarget(InfoPrefix, symbols);
    ReadFollowsLookup(after, listed, ListKey, now, parse);
    if listFetched.Ok? && listFault == NoFault {
      SetThenGet(files, ListKey, listFetched.value, now, format, parse, ListKey, DefaultMaxAgeHours, now);
    } else if listFetched.Ok? && listFault == WriteFails {
      MalformedReadsAbsent(files, ListKey, listFetched.value, stamp, DefaultMaxAgeHours, now, parse);
    }
  }

  /** A symbol whose last price visit fetches and writes successfully has
      those prices readable at once after the run, and likewise for its
      info. */
  lemma RefreshStoresSymbol(listed: Directory, symbols: seq<string>, fetchPrice: Fetches, fetchInfo: Fetches,
                            now: int, format: int -> string, parse: string -> Option<int>, faults: Faults, i: nat)
    requires parse(format(now)) == Some(now)
    requires i < |symbols| && symbols[i] !in symbols[i + 1..]
    ensures var s := symbols[i];
            var after := Refreshed(listed, symbols, fetchPrice, fetchInfo, format(now), faults);
            && (fetchPrice(i, s).Ok? && fetchPrice(i, s).value != JNull && faults(i, PricePrefix + s) == NoFault ==>
                  Read(after, PricePrefix + s, DefaultMaxAgeHours, now, parse) == Some(fetchPrice(i, s).value))
            && (fetchInfo(i, s).Ok? && fetchInfo(i, s).value != JNull && faults(i, InfoPrefix + s) == NoFault ==>
                  Read(after, InfoPrefix + s, DefaultMaxAgeHours, now, parse) == Some(fetchInfo(i, s).value))
  {
    var s := symbols[i];
    var stamp := format(now);
    var priced := RefreshAll(listed, PricePrefix, symbols, fetchPrice, stamp, faults);
    var after := RefreshAll(priced, InfoPrefix, symbols, fetchInfo, stamp, faults);
    var pk, ik := PricePrefix + s, InfoPrefix + s;
    if fetchPrice(i, s).Ok? && fetchPrice(i, s).value != JNull && faults(i, pk) == NoFault {
      RefreshStores(listed, PricePrefix, symbols, fetchPrice, stamp, faults, i);
      RefreshOthers(priced, InfoPrefix, symbols, fetchInfo, stamp, faults);
      assert !Target(InfoPrefix, symbols, FileName(pk)) by {
        forall s' | s' in symbols ensures FileName(pk) != FileName(InfoPrefix + s') {
          assert FileName(pk)[0] == 'p' != 'i' == FileName(InfoPrefix + s')[0];
        }
      }
      SetThenGet(listed, pk, fetchPrice(i, s).value, now, format, parse, pk, DefaultMaxAgeHours, now);
      ReadFollowsLookup(after, Written(listed, pk, fetchPrice(i, s).value, stamp, NoFault), pk, now, parse);
    }
    if fetchInfo(i, s).Ok? && fetchInfo(i, s).value != JNull && faults(i, ik) == NoFault {
      RefreshStores(priced, InfoPrefix, symbols, fetchInfo, stamp, faults, i);
      SetThenGet(priced, ik, fetchInfo(i, s).value, now, format, parse, ik, DefaultMaxAgeHours, now);
      ReadFollowsLookup(after, Written(priced, ik, fetchInfo(i, s).value, stamp, NoFault), ik, now, parse);
    }
  }

  /** `get` only looks at the key's own file. */
  lemma ReadFollowsLookup(m1: Directory, m2: Directory, key: string, now: int, parse: string -> Option<int>)
    requires Lookup(m1, FileName(key)) == Lookup(m2, FileName(key))
    ensures Read(m1, key, DefaultMaxAgeHours, now, parse) == Read(m2, key, DefaultMaxAgeHours, now, parse)
  {
  }

  /** The loop of `update_stock_prices` / `update_stock_info` over a cache. */
  method RefreshEach(cache: CacheManager, prefix: string, symbols: seq<string>,
                     fetch: Fetches, now: int, format: int -> string, faults: Faults)
    modifies cache
    ensures cache.files == RefreshAll(old(cache.files), prefix, symbols, fetch, format(now), faults)
  {
    for i := 0 to |symbols|
      invariant cache.files == RefreshAll(old(cache.files), prefix, symbols[..i], fetch, format(now), faults)
    {
      var symbol := symbols[i];
      var key := prefix + symbol;
      var fetched := fetch(i, symbol);
      if fetched.Ok? {
        var _ := cache.Set(key, fetched.value, now, format, faults(i, key));
      }
      assert symbols[..i + 1][..i] == symbols[..i];
    }
    assert symbols[..|symbols|] == symbols;
  }
}
