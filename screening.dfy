/** `StockDataService.screen_stocks` (backend/app/services/stock_data.py):
    keep the `symbol` column and `organ_name` renamed to `name`, sort the rows
    by symbol and keep the first `limit` of them when `limit` is positive. */
module Screening {
  import opened Wrappers
  import opened StringOrder

  /** One row of the provider's listing, in the two columns the screen reads. */
  datatype ListingRow = ListingRow(symbol: string, organName: string)

  /** The listing frame: which columns it has, and its rows. */
  datatype Listing = Listing(columns: set<string>, rows: seq<ListingRow>)

  /** One screened record; `name` is absent when the listing has no
      `organ_name` column. */
  datatype ScreenedRow = ScreenedRow(symbol: string, name: Option<string>)

  /** pandas' `DataFrame.empty`: no rows or no columns. */
  predicate EmptyFrame(l: Listing) {
    l.rows == [] || l.columns == {}
  }

  function Symbol(row: ScreenedRow): string {
    row.symbol
  }

  /** The column selection and renaming, row by row. */
  function Project(l: Listing): (r: seq<ScreenedRow>)
    ensures |r| == |l.rows|
    ensures forall i :: 0 <= i < |r| ==>
              r[i].symbol == l.rows[i].symbol &&
              (r[i].name.Some? <==> "organ_name" in l.columns) &&
              (r[i].name.Some? ==> r[i].name.value == l.rows[i].organName)
  {
    var keepName := "organ_name" in l.columns;
    seq(|l.rows|, i requires 0 <= i < |l.rows| =>
      ScreenedRow(l.rows[i].symbol, if keepName then Some(l.rows[i].organName) else None))
  }

  /** `df.head(limit)` when `limit > 0`, the whole frame otherwise. */
  function Head<T>(s: seq<T>, limit: int): (r: seq<T>)
    ensures limit > 0 ==> |r| == if limit < |s| then limit else |s|
    ensures limit <= 0 ==> r == s
    ensures r == s[..|r|]
  {
    if limit > 0 && limit < |s| then s[..limit] else s
  }

  /** `screen_stocks(limit)` given what the provider's `all_symbols()`
      returned: a failure propagates; None or an empty frame gives []; a
      non-empty frame without a `symbol` column fails in `sort_values`. */
  function ScreenStocks(listing: Result<Option<Listing>, Error>, limit: int): (r: Result<seq<ScreenedRow>, Error>)
    ensures listing.Err? ==> r == Err(listing.error)
    ensures listing == Ok(None) ==> r == Ok([])
    ensures listing.Ok? && listing.value.Some? && EmptyFrame(listing.value.value) ==> r == Ok([])
    ensures listing.Ok? && listing.value.Some? && !EmptyFrame(listing.value.value) ==>
              (r.Err? <==> "symbol" !in listing.value.value.columns) &&
              (r.Err? ==> r.error == KeyError("symbol"))
    ensures r.Ok? ==> SortedBy(r.value, Symbol)
    ensures r.Ok? && limit > 0 ==> |r.value| <= limit
  {
    match listing
    case Err(e) => Err(e)
    case Ok(None) => Ok([])
    case Ok(Some(l)) =>
      if EmptyFrame(l) then Ok([])
      else if "symbol" !in l.columns then Err(KeyError("symbol"))
      else
        var sorted := SortBy(Project(l), Symbol);
        SortedPrefix(sorted, Symbol, |Head(sorted, limit)|);
        Ok(Head(sorted, limit))
  }

  lemma SortedPrefix<T>(s: seq<T>, key: T -> string, n: nat)
    requires SortedBy(s, key) && n <= |s|
    ensures SortedBy(s[..n], key)
  {
  }

  /** What a successful screen holds: the smallest symbols of the listing, in
      order. Without a positive limit every listed row is returned exactly
      once; with one, the first min(limit, rows) rows of that order. */
  lemma ScreenContents(l: Listing, limit: int)
    requires !EmptyFrame(l) && "symbol" in l.columns
    ensures var r := ScreenStocks(Ok(Some(l)), limit).value;
            var all := SortBy(Project(l), Symbol);
            && r == all[..|r|]
            && |r| == (if 0 < limit < |l.rows| then limit else |l.rows|)
            && (limit <= 0 || limit >= |l.rows| ==> multiset(r) == multiset(Project(l)))
            && (forall row :: row in r ==> row in Project(l))
  {
    var r := ScreenStocks(Ok(Some(l)), limit).value;
    var all := SortBy(Project(l), Symbol);
    forall row | row in r ensures row in Project(l) {
      assert row in multiset(all);
    }
  }

  /** Every screened row keeps a listed symbol, and its name is the
      company name listed beside it. */
  lemma ScreenedRowsListed(l: Listing, limit: int, row: ScreenedRow)
    requires !EmptyFrame(l) && "symbol" in l.columns
    requires row in ScreenStocks(Ok(Some(l)), limit).value
    ensures exists i :: 0 <= i < |l.rows| && row.symbol == l.rows[i].symbol &&
              row.name == (if "organ_name" in l.columns then Some(l.rows[i].organName) else None)
  {
    ScreenContents(l, limit);
    var p := Project(l);
    var i :| 0 <= i < |p| && p[i] == row;
    assert row.symbol == l.rows[i].symbol;
  }
}
