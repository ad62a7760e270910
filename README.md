# Stock analytics and caching core, in Dafny

This project models the parts of the stock platform that carry logic:

- **Series analytics** of the backend's stock service:
  - the technical-analysis report, with moving averages, RSI, MACD with its signal line, and Bollinger bands;
  - the weighted portfolio analysis;
  - the portfolio performance, with total return, daily returns, volatility and Sharpe ratio;
  - the stock screen.
- **Three caches:**
  - the in-memory memoizer with a TTL (`Cache`);
  - the file-per-key JSON cache with a maximum age (`CacheManager`);
  - the read-through price cache of the older stock service, which has no expiry.
- **The daily batch refresh** (`DataJobs`) in both variants:
  - the newer one extracts each item's `symbol`;
  - the older one uses the cached list itself as the symbols.
- **The analytics helpers of the vnstock demo:** an RSI that fills gaps with 50, growth metrics, risk metrics and a compounding forecast.
- **The `BACKEND_CORS_ORIGINS` validator** of the settings.

Modelling conventions:

- **Numbers.** Floats are `real`. A value pandas would leave as NaN is `None`.
- **Square root.** The square root inside a standard deviation is a parameter `sqrt`. Lemmas that need a sign assume it is non-negative on non-negative inputs (`RealSeq.NonNegativeRoot`).
- **Clock.** The clock is an integer number of seconds, `now`. Writing and reading ISO timestamps goes through the parameters `format: int -> string` and `parse: string -> Option<int>`. Round-trip lemmas assume `parse(format(t)) == Some(t)`.
- **Data provider.** The provider is given as what it answered: a `Result` that is a value or a raised error, or a function from symbol to such a `Result`. In the refresh loops it is a function of the loop position and the symbol, so a symbol listed twice is asked twice and may get different answers; the outcome of each write is given the same way.
- **Cache directory.**
  - It is a `map` from file name to content.
  - A file that cannot be decoded is `Unreadable`.
  - A write either succeeds, fails before the file is touched (`OpenFails`), or leaves a truncated file (`WriteFails`).

Modules:

- `Wrappers`: the `Option`, `Result` and `Outcome` types and the error kinds.
- `Strings`: Python's `str.join`, shared by the memoizer key and the validator.
- `JsonValue`: JSON values, with Python truthiness, `dict.get` and iteration.
- `StringOrder`: the lexicographic order on strings and a sort by a string key.
- `RealSeq`: sums, means, relative change, sample variance and standard deviation.
- `Indicators`: the technical analysis.
- `Screening`: the stock screen.
- `Portfolio`: portfolio analysis and performance.
- `MemoCache`: the memoizer.
- `FileCache`: `CacheManager`.
- `PriceCache`: the read-through price service.
- `BatchRefresh`: the refresh loop and the daily run, shared by both job variants.
- `AppDataJobs` and `LegacyDataJobs`: the two `DataJobs` classes.
- `DemoAnalytics`: the demo helpers.
- `CorsConfig`: the validator.

Where the system's specification and the code disagree, the model follows the code:

- **Backend RSI start.** The backend RSI is first defined at index 13, not 14. The first delta is NaN, and `where(delta > 0, 0)` replaces it with 0, so the first 14-wide window is complete at index 13. `Indicators.RsiInRange` states only that positions before 13 are missing.
- **File-cache expiry.** The file cache treats an entry whose age equals the limit as fresh, because its test is `>`. The memoizer treats the same age as stale, because its test is `<`.
- **Demo RSI versus backend RSI.** The two disagree on windows without losses. The backend gives 100, or missing when there are no gains either. The demo gives 50 (`DemoAnalytics.DemoRsiMatchesBackend`).
- **Key collisions.** Both cache keys are built by plain concatenation, so distinct calls can share an entry:
  - `f("a:b")`, `f("a", "b")` and `f(a="b")` share one memoizer entry (`MemoCache.KeysCanCollide`).
  - `A_B` from `C` to `D` and `A` from `B_C` to `D` share one price file (`PriceCache.PriceKeysCanCollide`).
  - The price key is injective when both dates are ten characters long (`PriceCache.PriceKeyInjective`).
- **Short or zero price histories in the performance report.** The design says an instrument with fewer than two points adds no return term and the report never raises. In the code a one-bar instrument still adds a term of 0, and a zero first close raises ZeroDivisionError (backend/app/services/stock_data.py:630-633). `Portfolio.ReturnTermsOkIff` and `Portfolio.PerformanceFailsOnZeroClose` state this.

## Model

| member | source | states |
|---|---|---|
| Wrappers.PrependOk | backend/app/services/stock_data.py:640-647 | appending earlier entries in front of a later result keeps its error or prefixes its values |
| Wrappers.PrependTwice | backend/app/services/stock_data.py:640-647 | two successive prefixings equal one prefixing by the concatenation, so loop order is preserved |
| JsonValue.Get | backend/services/cache.py:34-38 | `dict.get` finds a value iff some field has that name, and the value found belongs to such a field |
| JsonValue.Items | backend/services/data_jobs.py:74-75 | iterating raises TypeError exactly for null, booleans and numbers; a list yields its items, a string its one-character strings in order, a dict its names in order |
| StringOrder.LessTransitive | backend/app/services/stock_data.py:369 | the order `sort_values` uses on symbols is transitive |
| StringOrder.LessTotal | backend/app/services/stock_data.py:369 | any two distinct symbols are ordered one way or the other |
| StringOrder.LessEqAntisymmetric | backend/app/services/stock_data.py:369 | symbols ordered both ways are equal |
| StringOrder.SortBy | backend/app/services/stock_data.py:369 | the result is sorted by the key and is a permutation of the input |
| StringOrder.SortedUnique | backend/app/services/stock_data.py:369 | two sorted permutations of rows with distinct keys are identical |
| StringOrder.SortByIgnoresOrder | backend/app/core/cache.py:27 | sorting entries with distinct keys gives the same sequence whatever their initial order |
| RealSeq.SumConcat | backend/app/services/stock_data.py:637 | the sum of a concatenation is the sum of the sums |
| RealSeq.MeanFlat | backend/app/services/stock_data.py:421-425 | the mean of a constant window is that constant |
| RealSeq.MeanWithin | backend/app/services/stock_data.py:421-425 | a mean lies between any lower and upper bound of its window |
| RealSeq.MeanIsScaledSum | backend/app/services/stock_data.py:560-561 | the mean is the sum weighted by 1/n each |
| RealSeq.SumZeroIffAllZero | backend/app/services/stock_data.py:439-440 | a sum of non-negative terms is zero iff every term is zero |
| RealSeq.MeanZeroIffAllZero | backend/app/services/stock_data.py:439-440 | a mean of non-negative terms is zero iff every term is zero |
| RealSeq.MeanNonNegative | backend/app/services/stock_data.py:439-440 | a mean of non-negative terms is non-negative |
| RealSeq.DotFlat | backend/app/services/stock_data.py:570-583 | a weighted sum with one common weight is the plain sum times that weight |
| RealSeq.ChangeRebuilds | backend/app/services/stock_data.py:633 | the relative change from `a` to `b` rebuilds `b` as `a·(1+change)` |
| RealSeq.VarianceNonNegative | backend/app/services/stock_data.py:461 | the sample variance is never negative |
| RealSeq.VarianceOfFlat | backend/app/services/stock_data.py:650 | a constant sample has variance zero |
| RealSeq.SampleStd | backend/app/services/stock_data.py:650 | the sample standard deviation is defined iff there are at least two values |
| RealSeq.StdNonNegative | backend/app/services/stock_data.py:461 | with a non-negative root, the standard deviation is non-negative |
| Indicators.RollingMean | backend/app/services/stock_data.py:421-434 | same length as the closes; missing exactly at the first w−1 positions |
| Indicators.MovingAverageOfFlat | backend/app/services/stock_data.py:421-434 | a constant series gives that constant wherever the average is defined |
| Indicators.MovingAverageWithin | backend/app/services/stock_data.py:421-434 | a defined average lies within the bounds of its trailing window |
| Indicators.Gains | backend/app/services/stock_data.py:439 | one clipped gain per close |
| Indicators.Losses | backend/app/services/stock_data.py:440 | one clipped loss per close |
| Indicators.GainsLossesNonNegative | backend/app/services/stock_data.py:439-440 | clipped gains and losses are never negative |
| Indicators.AverageMoves | backend/app/services/stock_data.py:439-440 | the windowed average gain and loss are non-negative |
| Indicators.Rsi | backend/app/services/stock_data.py:438-444 | one RSI value per close |
| Indicators.RsiFromAverages | backend/app/services/stock_data.py:441-442 | missing exactly when there is neither gain nor loss (0/0); 100 when there are gains and no losses (an infinite rs) |
| Indicators.RsiFromAveragesInRange | backend/app/services/stock_data.py:441-442 | RSI from averages is missing iff both are zero and otherwise lies in [0,100] |
| Indicators.RsiInRange | backend/app/services/stock_data.py:438-444 | missing before index 13; every defined value lies in [0,100] |
| Indicators.NoMoveAt | backend/app/services/stock_data.py:438-440 | a step has zero gain and zero loss iff the close did not change |
| Indicators.WindowFlatIffNoMove | backend/app/services/stock_data.py:438-440 | a window's gains and losses are all zero iff no close in it moved |
| Indicators.RsiMissingIffNoMove | backend/app/services/stock_data.py:438-444 | past the warm-up, RSI is missing iff the close did not move across the 14-window |
| Indicators.GainShare | backend/app/services/stock_data.py:441-442 | 100 − 100/(1+G/L) equals 100·G/(G+L) |
| Indicators.GainShareArithmetic | backend/app/services/stock_data.py:441-442 | the same identity holds on window averages |
| Indicators.RsiIsGainShare | backend/app/services/stock_data.py:438-444 | a defined RSI is 100 times the window's gains over its total movement, so zero loss with gains gives 100 |
| Indicators.Ema | backend/app/services/stock_data.py:448-449 | the EMA is defined at every position |
| Indicators.EmaPrefix | backend/app/services/stock_data.py:448-449 | the EMA of a prefix is the prefix of the EMA (no look-ahead) |
| Indicators.EmaRecurrence | backend/app/services/stock_data.py:448-449 | seeded with the first close, then `(1−α)·prev + α·x` (`adjust=False`) |
| Indicators.EmaWithin | backend/app/services/stock_data.py:448-451 | for α in [0,1] the EMA stays within any bounds of its input |
| Indicators.AlphaInUnitRange | backend/app/services/stock_data.py:448-451 | α = 2/(span+1) lies in (0,1] for every positive span |
| Indicators.Macd | backend/app/services/stock_data.py:450 | one MACD value per close |
| Indicators.SignalLine | backend/app/services/stock_data.py:451 | one signal value per close |
| Indicators.FlatMacd | backend/app/services/stock_data.py:448-456 | a constant series gives MACD = Signal = 0 everywhere |
| Indicators.RollingStd | backend/app/services/stock_data.py:461 | one rolling standard deviation per close |
| Indicators.Bollinger | backend/app/services/stock_data.py:460-467 | three bands, each as long as the closes |
| Indicators.BollingerOrdered | backend/app/services/stock_data.py:460-467 | all bands are missing exactly at the first 19 positions; Middle is SMA20; Upper−Middle = Middle−Lower = 2·std20; Lower ≤ Middle ≤ Upper |
| Indicators.Defined | backend/app/services/stock_data.py:453-456 | a series defined everywhere, value by value |
| Indicators.IndicatorFor | backend/app/services/stock_data.py:419-467 | every line computed for a known indicator has one entry per close |
| Indicators.IndicatorMap | backend/app/services/stock_data.py:416-467 | exactly the requested known indicator names are keys, each with lines as long as the history |
| Indicators.TechnicalAnalysis | backend/app/services/stock_data.py:399-474 | a provider error propagates; a missing history gives empty data; otherwise the keys are the requested names among MA, RSI, MACD and BB, and every line has one entry per close |
| Indicators.FlatSeriesReport | backend/app/services/stock_data.py:419-456 | a constant series gives MA5 = that constant from index 4, RSI missing everywhere, MACD = Signal = 0 everywhere |
| Screening.Project | backend/app/services/stock_data.py:356-366 | keeps each row's symbol; `name` is present iff the listing has `organ_name`, and then equals it |
| Screening.Head | backend/app/services/stock_data.py:372-373 | a positive limit keeps the first min(limit, n) rows; otherwise all rows are kept |
| Screening.ScreenStocks | backend/app/services/stock_data.py:341-379 | provider errors propagate; a missing or empty listing gives []; a missing `symbol` column raises KeyError; the result is sorted by symbol and holds at most `limit` rows when limit > 0 |
| Screening.SortedPrefix | backend/app/services/stock_data.py:369-373 | truncating a sorted screen keeps it sorted |
| Screening.ScreenContents | backend/app/services/stock_data.py:345-375 | the screen is a prefix of the sorted projection, of length min(limit, n) (n when limit ≤ 0), and without truncation a permutation of it |
| Screening.ScreenedRowsListed | backend/app/services/stock_data.py:363-375 | every screened row comes from a row of the listing |
| Portfolio.FetchAll | backend/app/services/stock_data.py:564-567 | one fetched item per symbol, in order; fails with the first symbol's error iff some fetch fails |
| Portfolio.FetchEach | backend/app/services/stock_data.py:564-567 | the fetch loop computes FetchAll |
| Portfolio.EffectiveWeights | backend/app/services/stock_data.py:560-561 | given weights are kept; omitted weights for no symbols raise ZeroDivisionError |
| Portfolio.DefaultWeightsSumToOne | backend/app/services/stock_data.py:560-561 | default weights are n copies of 1/n and sum to 1 |
| Portfolio.WeightedFieldSum | backend/app/services/stock_data.py:570-583 | Σ weight·`float(info.get(name, 0))` over the zipped pairs, added left to right, failing with the first conversion error |
| Portfolio.FieldSumUsesZip | backend/app/services/stock_data.py:570-583 | only the first min(len) info/weight pairs contribute |
| Portfolio.MissingFieldCountsZero | backend/app/services/stock_data.py:570-583 | a field missing from every info sums to 0 |
| Portfolio.FieldSumIsDot | backend/app/services/stock_data.py:570-583 | with numeric fields, the weighted sum is the dot product of values and weights |
| Portfolio.DefaultWeightsAverage | backend/app/services/stock_data.py:560-583 | with default weights, each metric is the plain mean of the field |
| Portfolio.AnalysisOf | backend/app/services/stock_data.py:560-594 | no symbols and no weights raises ZeroDivisionError; a result echoes the symbols and weights and holds one info per symbol |
| Portfolio.PortfolioAnalysis | backend/app/services/stock_data.py:560-594 | the method computes AnalysisOf |
| Portfolio.Sharpe | backend/app/services/stock_data.py:658 | zero volatility gives 0; otherwise ratio·volatility = total return; missing volatility gives missing |
| Portfolio.PerformanceOf | backend/app/services/stock_data.py:618-661 | no symbols and no weights raises ZeroDivisionError; volatility is the sample std of the daily returns |
| Portfolio.ReturnTerms | backend/app/services/stock_data.py:628-637 | weight·(last−first)/first for every zipped instrument with at least one bar, in instrument order; ZeroDivisionError on a zero first close |
| Portfolio.DailyFrom | backend/app/services/stock_data.py:640-647 | one instrument's weighted daily returns from a given bar on; ZeroDivisionError on a zero previous close |
| Portfolio.DailyReturns | backend/app/services/stock_data.py:640-647 | the zipped instruments' daily returns concatenated in instrument order, failing with the first instrument's error |
| Portfolio.DailyFromShape | backend/app/services/stock_data.py:641-647 | an instrument adds len−1 daily returns, and fails with ZeroDivisionError iff a previous close is 0 |
| Portfolio.DailyReturnsCount | backend/app/services/stock_data.py:640-647 | the daily-return list has the summed length of all instruments' contributions |
| Portfolio.ReturnTermsOkIff | backend/app/services/stock_data.py:628-637 | the total return fails iff some non-empty instrument in the zip starts at 0 |
| Portfolio.DailyReturnsOkIff | backend/app/services/stock_data.py:640-647 | the daily returns fail iff some instrument in the zip has a zero close before its last |
| Portfolio.PerformanceFailsOnZeroClose | backend/app/services/stock_data.py:618-658 | performance succeeds iff no zipped instrument divides by a zero close; the daily-return count then matches |
| Portfolio.DailyFromValues | backend/app/services/stock_data.py:641-647 | an instrument's daily returns are its weighted changes from each close to the next, in bar order, and every close divided by is non-zero |
| Portfolio.SingleInstrumentReturn | backend/app/services/stock_data.py:614-655 | one instrument gets weight 1, total return (last−first)/first, daily returns equal to its own changes from each close to the next, and volatility their sample standard deviation |
| Portfolio.SteadyDailyZero | backend/app/services/stock_data.py:641-647 | unchanging closes give all-zero daily returns |
| Portfolio.SteadyTermsZero | backend/app/services/stock_data.py:628-647 | unchanging instruments give all-zero return terms and daily returns |
| Portfolio.SteadyPortfolio | backend/app/services/stock_data.py:618-658 | unchanging prices give total return 0, zero daily returns, and with two or more of them volatility 0 and Sharpe 0 |
| Portfolio.CollectReturns | backend/app/services/stock_data.py:628-635 | the returns loop computes the specified return terms |
| Portfolio.AppendDaily | backend/app/services/stock_data.py:642-647 | the inner loop appends one instrument's weighted daily returns |
| Portfolio.CollectDaily | backend/app/services/stock_data.py:640-647 | the nested loops compute the specified daily returns in instrument order |
| Portfolio.PortfolioPerformance | backend/app/services/stock_data.py:618-661 | the method computes PerformanceOf |
| MemoCache.Key | backend/app/core/cache.py:25-28 | the function name, the positional arguments' text and the sorted `k:v` keyword parts, joined with ":" |
| MemoCache.Stored | backend/app/core/cache.py:37-43 | a returned value is stored under the key with its timestamp; a raised exception stores nothing |
| MemoCache.KeyIgnoresKeywordOrder | backend/app/core/cache.py:25-28 | the key does not depend on the order keyword arguments are given in |
| MemoCache.KeysCanCollide | backend/app/core/cache.py:25-28 | a positional "a:b", positionals "a","b" and keyword a="b" all yield the same key |
| MemoCache.Hit | backend/app/core/cache.py:31-34 | an entry is served iff present and `now − timestamp < ttl`, and then its stored value is served |
| MemoCache.StoredThenHit | backend/app/core/cache.py:31-43 | a stored value is served back iff still younger than ttl; other keys are unaffected |
| MemoCache.Cleared | backend/app/core/cache.py:47-58 | a truthy key removes only that entry; a missing or empty key empties the cache |
| MemoCache.Cache.constructor | backend/app/core/cache.py:11-12 | the cache starts empty |
| MemoCache.Cache.Call | backend/app/core/cache.py:23-43 | the function runs iff there is no fresh entry; a hit returns the stored value and changes nothing (stale entries are not dropped on read); a run stores a successful result with its time and returns it |
| MemoCache.Cache.CallTwice | backend/app/core/cache.py:31-43 | two calls within ttl return the same value and run the function once |
| MemoCache.Cache.Clear | backend/app/core/cache.py:47-58 | the entries become those Cleared describes |
| FileCache.FileName | backend/services/cache.py:25 | the key's file name is the key followed by `.json` |
| FileCache.Envelope | backend/services/cache.py:53-57 | the stored document is a dict whose `timestamp` is the ISO time text and whose `data` is the value |
| FileCache.FileNameInjective | backend/services/cache.py:25 | distinct keys use distinct `.json` files |
| FileCache.Read | backend/services/cache.py:14-42 | absent without a file; a result comes from a readable object whose parsed timestamp is at most the age limit old, and is its non-null `data` |
| FileCache.Written | backend/services/cache.py:44-64 | only the key's file changes: the envelope when the write succeeds, untouched when opening fails, unreadable when writing fails |
| FileCache.ClearedFiles | backend/services/cache.py:66-84 | a truthy key removes only its file; otherwise every `.json` file is removed and other files stay |
| FileCache.SetThenGet | backend/services/cache.py:25-60 | after a set, a get returns the data iff its age is at most the limit and the data is not null; other keys read as before |
| FileCache.MalformedReadsAbsent | backend/services/cache.py:29-42 | an unreadable file, a non-object or a missing timestamp reads as absent |
| FileCache.ClearForgets | backend/services/cache.py:73-80 | after clearing a key it reads as absent and others read as before; after clearing all, every key reads as absent |
| FileCache.CacheManager.constructor | backend/services/cache.py:10-12 | the manager starts on the given directory |
| FileCache.CacheManager.Get | backend/services/cache.py:14-42 | the early-return reader computes Read |
| FileCache.CacheManager.Set | backend/services/cache.py:44-64 | the directory becomes Written; a write failure is reported as an IOError |
| FileCache.CacheManager.Clear | backend/services/cache.py:66-84 | the unlink loop leaves exactly ClearedFiles |
| PriceCache.PriceKey | backend/services/stock_data.py:29 | the price key `{symbol}_{start}_{end}` begins with the symbol, ends with the end date and has two separators |
| PriceCache.PriceKeyInjective | backend/services/stock_data.py:29 | with ten-character dates, equal files imply equal symbol, start and end |
| PriceCache.PriceKeysCanCollide | backend/services/stock_data.py:29 | without that, two different triples share a file |
| PriceCache.Served | backend/services/stock_data.py:27-49 | a hit returns the stored records with no age check and writes nothing; a miss propagates provider errors, otherwise writes the records and returns them, or raises IOError when the write fails |
| PriceCache.RecordsWritten | backend/services/stock_data.py:41-43 | writing the records touches only the key's file |
| PriceCache.SecondCallReturnsFirst | backend/services/stock_data.py:29-45 | after a successful miss, a second call returns the first call's records whatever the provider says |
| PriceCache.FailedMissLeavesNoEntry | backend/services/stock_data.py:35-49 | a failed miss raises; it leaves no file, or a truncated one that later reads fail on |
| PriceCache.StockDataService.constructor | backend/services/stock_data.py:11-13 | the service starts on the given directory |
| PriceCache.StockDataService.GetStockPrice | backend/services/stock_data.py:15-49 | the method computes Served, calling the provider iff the file is missing |
| BatchRefresh.Touched | backend/app/services/data_jobs.py:43-48 | a failed fetch or failed open leaves the directory unchanged; otherwise only the key's file is rewritten |
| BatchRefresh.RefreshAll | backend/app/services/data_jobs.py:26-37 | the directory after the guarded step at every loop position in order, each visit with its own provider answer and write outcome |
| BatchRefresh.PrefixedFileNames | backend/app/services/data_jobs.py:33 | distinct symbols get distinct `price_`/`info_` files |
| BatchRefresh.RefreshOthers | backend/app/services/data_jobs.py:26-37 | the loop changes no file other than those of its symbols |
| BatchRefresh.LastVisitDecides | backend/app/services/data_jobs.py:26-37 | no visit after a symbol's last one touches its file |
| BatchRefresh.RefreshEffect | backend/app/services/data_jobs.py:26-37 | a symbol's last visit leaves its file as before when its fetch or open fails and otherwise decides it whatever came earlier; a symbol visited once ends as its own step leaves it, so one symbol's failure does not affect another |
| BatchRefresh.RefreshStores | backend/app/services/data_jobs.py:26-37 | a symbol whose last visit succeeds holds that visit's data; a symbol visited once whose fetch fails keeps its file |
| BatchRefresh.ListNotTarget | backend/app/services/data_jobs.py:33 | the refreshes never touch the stock-list file |
| BatchRefresh.Refreshed | backend/app/services/data_jobs.py:83-84 | the price refresh over the symbols, followed by the info refresh |
| BatchRefresh.DailyRun | backend/app/services/data_jobs.py:65-88 | refresh the list, read it back, stop on nothing truthy, raise a failed extraction, otherwise refresh prices then info |
| BatchRefresh.DailyRunExitsEarly | backend/app/services/data_jobs.py:69-77 | an absent, stale or empty list read back ends the run after the list refresh; a failing symbol extraction is re-raised |
| BatchRefresh.DailyRunProceeds | backend/app/services/data_jobs.py:69-84 | otherwise all price refreshes run, then all info refreshes |
| BatchRefresh.RefreshKeepsList | backend/app/services/data_jobs.py:71-84 | after the run, the list reads as the fresh fetch when written whole, as absent when its write broke off, and as the previous still-fresh list when the fetch or the open failed |
| BatchRefresh.RefreshStoresSymbol | backend/app/services/data_jobs.py:80-84 | a symbol whose last price or info visit succeeds reads back as that visit fetched |
| BatchRefresh.ReadFollowsLookup | backend/services/cache.py:25-42 | a read depends only on the key's own file |
| BatchRefresh.RefreshEach | backend/app/services/data_jobs.py:26-37 | the per-symbol loop computes RefreshAll |
| AppDataJobs.SymbolFields | backend/app/services/data_jobs.py:80 | raises AttributeError iff some item is not a dict; otherwise it holds exactly the truthy `symbol`s, never more than the items |
| AppDataJobs.SymbolFieldsConcat | backend/app/services/data_jobs.py:80 | the symbols of two concatenated lists are those of the first followed by those of the second, so the filter keeps list order and repeats |
| AppDataJobs.SymbolFieldsOfOne | backend/app/services/data_jobs.py:80 | one item gives its symbol when it is a dict naming one, nothing when it is another dict, and AttributeError otherwise |
| AppDataJobs.ListedSymbols | backend/app/services/data_jobs.py:74-80 | iterating null, a boolean or a number raises TypeError; a list yields SymbolFields; a non-empty string or dict raises AttributeError, an empty one gives no symbols |
| AppDataJobs.SymbolsInListOrder | backend/app/services/data_jobs.py:80 | when every item names a symbol, the symbols are those items' in list order |
| AppDataJobs.DataJobs.constructor | backend/app/services/data_jobs.py:11-13 | the jobs write through the given cache manager |
| AppDataJobs.DataJobs.UpdateStockPrices | backend/app/services/data_jobs.py:15-37 | the directory becomes RefreshAll with the `price_` prefix |
| AppDataJobs.DataJobs.UpdateStockList | backend/app/services/data_jobs.py:39-48 | never raises; the directory becomes Touched for `stock_list` |
| AppDataJobs.DataJobs.UpdateStockInfo | backend/app/services/data_jobs.py:50-63 | the directory becomes RefreshAll with the `info_` prefix |
| AppDataJobs.DataJobs.RunDailyJobs | backend/app/services/data_jobs.py:65-88 | outcome and directory are DailyRun with symbols extracted from each item's `symbol` |
| LegacyDataJobs.RawSymbols | backend/services/data_jobs.py:74-75 | the cached list is used as it is: a list's items as text, a string's characters, a dict's names; iterating null, a boolean or a number raises TypeError |
| LegacyDataJobs.VariantsDiffer | backend/services/data_jobs.py:74-75 | a list of plain symbols works here but raises AttributeError in the newer variant; a list of records keys by the whole record here but by its symbol there |
| LegacyDataJobs.DataJobs.constructor | backend/services/data_jobs.py:10-12 | the jobs write through the given cache manager |
| LegacyDataJobs.DataJobs.UpdateStockPrices | backend/services/data_jobs.py:14-31 | the directory becomes RefreshAll with the `price_` prefix |
| LegacyDataJobs.DataJobs.UpdateStockList | backend/services/data_jobs.py:33-42 | never raises; the directory becomes Touched for `stock_list` |
| LegacyDataJobs.DataJobs.UpdateStockInfo | backend/services/data_jobs.py:44-57 | the directory becomes RefreshAll with the `info_` prefix |
| LegacyDataJobs.DataJobs.RunDailyJobs | backend/services/data_jobs.py:59-79 | outcome and directory are DailyRun with the cached list as the symbols |
| DemoAnalytics.DemoRsi | library_demos/vnstock/examples/advanced_features.py:120-133 | as long as the prices; all missing when shorter than the period, otherwise defined everywhere |
| DemoAnalytics.DemoRsiAt | library_demos/vnstock/examples/advanced_features.py:125-133 | one RSI value: 50 in the warm-up and where the window has no loss, otherwise 100 − 100/(1+gain/loss) |
| DemoAnalytics.DemoRsiInRange | library_demos/vnstock/examples/advanced_features.py:125-133 | values lie in [0,100]; warm-up positions and windows without losses give 50 |
| DemoAnalytics.DemoRsiMatchesBackend | library_demos/vnstock/examples/advanced_features.py:125-133 | with losses in the window it equals the backend RSI; without losses the backend gives 100 or missing and the demo gives 50 |
| DemoAnalytics.PercentChange | library_demos/vnstock/examples/advanced_features.py:142-143 | as long as the input; first entry missing; later entries defined iff the previous value is non-zero |
| DemoAnalytics.PercentChangeRebuilds | library_demos/vnstock/examples/advanced_features.py:142-143 | a defined percentage change rebuilds the current value from the previous one |
| DemoAnalytics.GrowthMetrics | library_demos/vnstock/examples/advanced_features.py:135-148 | empty input or a missing column gives an empty frame; otherwise two growth columns, row-aligned, first entries missing |
| DemoAnalytics.MaxOf | library_demos/vnstock/examples/advanced_features.py:191 | the maximum is an element and bounds every element |
| DemoAnalytics.MinOf | library_demos/vnstock/examples/advanced_features.py:191 | the minimum is an element and is below every element |
| DemoAnalytics.Returns | library_demos/vnstock/examples/advanced_features.py:189 | one relative change per consecutive pair, undefined iff a previous close is 0 |
| DemoAnalytics.SpreadPercent | library_demos/vnstock/examples/advanced_features.py:191 | (max−min)/max·100 lies in [0,100) when 0 < min ≤ max, and is 0 iff min = max |
| DemoAnalytics.Drawdown | library_demos/vnstock/examples/advanced_features.py:191 | (max − min)/max·100 of the closes, missing when the maximum is 0 |
| DemoAnalytics.DrawdownBounds | library_demos/vnstock/examples/advanced_features.py:191 | for positive closes the drawdown lies in [0,100) and is 0 iff the closes are constant |
| DemoAnalytics.Volatility | library_demos/vnstock/examples/advanced_features.py:189-190 | defined iff there are at least three closes and no zero previous close |
| DemoAnalytics.VolatilityNonNegative | library_demos/vnstock/examples/advanced_features.py:190 | a defined volatility is non-negative |
| DemoAnalytics.RiskMetrics | library_demos/vnstock/examples/advanced_features.py:182-196 | empty input or no `close` column gives an empty series; otherwise exactly volatility and max drawdown |
| DemoAnalytics.AverageReturn | library_demos/vnstock/examples/advanced_features.py:204-205 | defined iff every return is |
| DemoAnalytics.SimplePriceForecast | library_demos/vnstock/examples/advanced_features.py:198-219 | fewer than two rows gives no rows; otherwise exactly `days` rows (none when days ≤ 0), row i being the i-step forecast |
| DemoAnalytics.ForecastPrice | library_demos/vnstock/examples/advanced_features.py:205-211 | a forecast exists exactly when the average return does (no zero close before the last), and the forecast 0 days ahead is the last close |
| DemoAnalytics.ForecastCompounds | library_demos/vnstock/examples/advanced_features.py:206-210 | the forecast starts at the last close and each step multiplies by 1 + average return |
| DemoAnalytics.PowOne | library_demos/vnstock/examples/advanced_features.py:210 | a growth factor of 1 compounds to 1 |
| DemoAnalytics.SteadyForecast | library_demos/vnstock/examples/advanced_features.py:204-210 | constant non-zero closes forecast that same price at every step |
| CorsConfig.Split | backend/app/core/config.py:14 | commas + 1 pieces, none containing a comma |
| CorsConfig.JoinSplit | backend/app/core/config.py:14 | joining the pieces with commas gives the string back |
| CorsConfig.SplitWithoutComma | backend/app/core/config.py:14 | a comma-free string is one piece |
| CorsConfig.SplitAtComma | backend/app/core/config.py:14 | a comma-free head splits off at its comma |
| CorsConfig.SplitJoin | backend/app/core/config.py:14 | splitting joined comma-free pieces gives the pieces back |
| CorsConfig.Strip | backend/app/core/config.py:14 | the result is a slice with only whitespace cut at both ends, and it neither starts nor ends with whitespace |
| CorsConfig.StripIdempotent | backend/app/core/config.py:14 | stripping twice equals stripping once |
| CorsConfig.StripClean | backend/app/core/config.py:14 | a string without surrounding whitespace is unchanged by strip |
| CorsConfig.AssembleCorsOrigins | backend/app/core/config.py:11-17 | other types raise ValueError; a list or a "["-string passes through; any other string gives commas + 1 stripped pieces |
| CorsConfig.OriginsOfCommaList | backend/app/core/config.py:13-14 | each origin is comma-free and stripped; empty pieces are kept |
| CorsConfig.CommaListRoundTrip | backend/app/core/config.py:13-14 | clean origins joined by commas come back as exactly those origins |

## Left out

- **Provider.** Every `vnstock` call is an input. This covers listing, history, basic info, company info and the stock list. The fetch-and-reshape wrappers around them are left out, and so is the provider's row format: a price history is a sequence of closes.
- **Floating point.** IEEE rounding, infinities and NaN propagation are not modelled. Where pandas would produce NaN or an infinity from a zero divisor, the model gives `None`, or raises ZeroDivisionError where Python raises. The NaN-to-None replacement in the report is the same `None`. In the demo helpers a 0→0 step makes the whole return statistic `None` (`DemoAnalytics.Returns`, `Volatility`, `AverageReturn`), while pandas gives NaN for that one step and skips it in `mean` and `std`, so closes such as `[2, 1, 0, 0]` still have a finite volatility there.
- **Square root.** It is an abstract parameter, not `math.sqrt`.
- **Wall clock and date formats.**
  - `time.time`, `datetime.now` and ISO-8601 are replaced by the integer clock and the `format`/`parse` parameters.
  - A batch uses one clock reading.
  - The date range of the price refresh, `days` = 30, is folded into the price fetch.
  - The forecast rows carry only the price, not the date. The frame's index is taken to be date-like. Otherwise, with `days > 0`, the source's date line raises, and its `except` returns an empty frame (library_demos/vnstock/examples/advanced_features.py:212-213, 217-219).
- **Concurrency.** Concurrent access to the cache, the shared cache directory and non-atomic writes are not modelled.
- **Unseen app cache.** The app's own cache module `backend/app/services/cache.py` is not part of this model. The newer jobs are modelled over the `CacheManager` of `backend/services/cache.py`.
- **Default arguments.** The defaults `limit=100` of the screen, `ttl=3600` of the memoizer and `days=5` of the forecast are not modelled; every operation takes the value explicitly.
- **HTTP and persistence.** The routers, persistence, settings loading and scripts are not modelled.
- MemoCache.Key: positional arguments are given as the text `str(arg)` would produce; the conversion itself is not modelled.
- MemoCache.Cache.Call: the result's timestamp is an input (`stamp`) rather than a second clock reading after the call.
- FileCache.CacheManager.Clear:
  - An unlink failure, which would raise, is not modelled.
  - A directory whose name ends in `.json` is treated like a file.
- FileCache.Read: decoding is two-valued: a document, or unreadable. Encoding errors and partial JSON are merged into unreadable.
- AppDataJobs.DataJobs.UpdateStockPrices: the `isinstance(DataFrame)` branch is merged into the plain set, because a fetched history is already a JSON value here.
- LegacyDataJobs.DataJobs.UpdateStockPrices: the price fetch goes through the read-through price service (`PriceCache`), which writes its own file into the same directory. Here the fetch is an abstract function, and those extra writes are not composed into the jobs' directory.
- DemoAnalytics.DemoRsi: requires a period of at least 1. The demo only calls it with the default 14.
- DemoAnalytics.Volatility: the factor √252·100 goes through the same abstract `sqrt`. Its value is stated only as non-negative.
- DemoAnalytics.GrowthMetrics: the growth columns are stated only by shape. Their values are stated through `PercentChange`.
- PriceCache.PriceKeyInjective: requires ten-character dates; the source does not validate them.
- CorsConfig.AssembleCorsOrigins: the later `AnyHttpUrl` validation of each origin is not modelled.
- Portfolio.PerformanceOf: a NaN volatility, from fewer than two daily returns, gives a missing Sharpe ratio rather than NaN.
- JsonValue.Items: a JSON object is taken to have distinct names. An object with a repeated name yields that name once per occurrence here, where the Python dict `json.load` builds yields it once.
- Screening.ScreenContents: the model's sort is stable. pandas' default `sort_values` is not, so rows with equal symbols may come out in another order; with distinct symbols the order is the same (`StringOrder.SortedUnique`).
- Portfolio.FetchAll: a symbol listed twice gets one provider answer for both places, while the source asks the provider twice.
