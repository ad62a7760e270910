/** `StockDataService.get_stock_price` of backend/services/stock_data.py: a
    read-through file cache keyed by symbol and date range. A file that
    exists is served as it is, with no age check; otherwise the provider's
    records are written to the file and returned. */
module PriceCache {
  import opened Wrappers
  import opened JsonValue
  import opened FileCache

  /** `f"{symbol}_{start_date}_{end_date}"`, the file name without ".json". */
  function PriceKey(symbol: string, start: string, end: string): (r: string)
    ensures |r| == |symbol| + |start| + |end| + 2
    ensures r[..|symbol|] == symbol && r[|r| - |end|..] == end
  {
    symbol + "_" + start + "_" + end
  }

  /** With dates in the ten-character YYYY-MM-DD form, each (symbol, start,
      end) triple has its own file. */
  lemma PriceKeyInjective(s1: string, a1: string, e1: string, s2: string, a2: string, e2: string)
    requires |a1| == |e1| == |a2| == |e2| == 10
    requires FileName(PriceKey(s1, a1, e1)) == FileName(PriceKey(s2, a2, e2))
    ensures s1 == s2 && a1 == a2 && e1 == e2
  {
    var k1, k2 := PriceKey(s1, a1, e1), PriceKey(s2, a2, e2);
    FileNameInjective(k1, k2);
    var n := |s1|;
    assert |s2| == n;
    assert s1 == k1[..n] && s2 == k2[..n];
    assert a1 == k1[n + 1..n + 11] && a2 == k2[n + 1..n + 11];
    assert e1 == k1[n + 12..] && e2 == k2[n + 12..];
  }

  /** Without that form the key is ambiguous: an underscore inside the symbol
      and one between the parts look the same. */
  lemma PriceKeysCanCollide()
    ensures PriceKey("A_B", "C", "D") == PriceKey("A", "B_C", "D")
  {
  }

  /** What one call returns and leaves in the directory, given what the
      provider would return and how writing the file would go. A present
      file is served without asking the provider (an unreadable one raises
      a decode error); on a miss a provider failure is raised and nothing is
      written, and a write failure is raised after `open` has truncated or
      failed to create the file. */
  function Served(files: Directory, key: string, fetched: Result<Json, Error>,
                  fault: WriteFault): (r: (Result<Json, Error>, Directory))
    ensures FileName(key) in files ==> r.1 == files
    ensures FileName(key) in files && files[FileName(key)].Document? ==> r.0 == Ok(files[FileName(key)].doc)
    ensures FileName(key) in files && files[FileName(key)].Unreadable? ==> r.0 == Err(DecodeError)
    ensures FileName(key) !in files && fetched.Err? ==> r == (Err(fetched.error), files)
    ensures FileName(key) !in files && fetched.Ok? ==>
              r.1 == RecordsWritten(files, key, fetched.value, fault) &&
              r.0 == (if fault == NoFault then Ok(fetched.value) else Err(IOError))
  {
    var name := FileName(key);
    if name in files then
      (if files[name].Document? then Ok(files[name].doc) else Err(DecodeError), files)
    else if fetched.Err? then (Err(fetched.error), files)
    else
      (if fault == NoFault then Ok(fetched.value) else Err(IOError), RecordsWritten(files, key, fetched.value, fault))
  }

  /** The records file this cache writes: the bare records, no envelope. */
  function RecordsWritten(files: Directory, key: string, records: Json, fault: WriteFault): (r: Directory)
    ensures forall n :: n != FileName(key) ==>
              (n in r <==> n in files) && (n in r ==> r[n] == files[n])
  {
    match fault
    case NoFault => files[FileName(key) := Document(records)]
    case OpenFails => files
    case WriteFails => files[FileName(key) := Unreadable]
  }

  /** A successful miss stores the provider's records; every later call for
      the same triple returns them, whatever the provider would say then and
      however old the file is, and writes nothing. */
  lemma SecondCallReturnsFirst(files: Directory, key: string, records: Json,
                               later: Result<Json, Error>, laterFault: WriteFault)
    requires FileName(key) !in files
    ensures var (r1, after) := Served(files, key, Ok(records), NoFault);
            r1 == Ok(records) && Served(after, key, later, laterFault) == (Ok(records), after)
  {
  }

  /** A failed miss leaves no usable entry: after a provider failure the file
      is still missing, after a broken-off write it is unreadable and every
      later call raises a decode error instead of asking the provider again. */
  lemma FailedMissLeavesNoEntry(files: Directory, key: string, fetched: Result<Json, Error>,
                                fault: WriteFault, later: Result<Json, Error>, laterFault: WriteFault)
    requires FileName(key) !in files
    requires fetched.Err? || fault != NoFault
    ensures var (r1, after) := Served(files, key, fetched, fault);
            && r1.Err?
            && (fetched.Err? || fault == OpenFails ==> FileName(key) !in after)
            && (fetched.Ok? && fault == WriteFails ==> Served(after, key, later, laterFault).0 == Err(DecodeError))
  {
  }

  /** The service, holding its cache directory. */
  class StockDataService {
    var files: Directory

    constructor (existing: Directory)
      ensures files == existing
    {
      files := existing;
    }

    /** `get_stock_price(symbol, start_date, end_date)`; `fetched` is what the
        provider returns or raises for the triple, and `called` tells whether
        it was asked. */
    method GetStockPrice(symbol: string, start: string, end: string,
                         fetched: Result<Json, Error>, fault: WriteFault)
      returns (r: Result<Json, Error>, called: bool)
      modifies this
      ensures var key := PriceKey(symbol, start, end);
              && (r, files) == Served(old(files), key, fetched, fault)
              && (called <==> FileName(key) !in old(files))
    {
      var name := FileName(PriceKey(symbol, start, end));
      if name in files {
        var content := files[name];
        if content.Unreadable? {
          return Err(DecodeError), false;
        }
        return Ok(content.doc), false;
      }
      called := true;
      if fetched.Err? {
        return Err(fetched.error), called;
      }
      var records := fetched.value;
      match fault
      case OpenFails =>
        r := Err(IOError);
      case WriteFails =>
        files := files[name := Unreadable];
        r := Err(IOError);
      case NoFault =>
        files := files[name := Document(records)];
        r := Ok(records);
    }
  }
}
