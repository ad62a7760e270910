/** `CacheManager` of backend/services/cache.py: one JSON file `<key>.json`
    per key in a cache directory, each holding `{"timestamp": <ISO time>,
    "data": <value>}`. The directory is a map from file name to what the file
    holds; the clock is whole seconds, and the ISO text of an instant is given
    by a `format`/`parse` pair standing for `isoformat`/`fromisoformat`. */
module FileCache {
  import opened Wrappers
  import opened JsonValue

  const DefaultMaxAgeHours: int := 24
  const SecondsPerHour: int := 3600

  /** A cache file, as `json.load` sees it: text that is not JSON, or a value. */
  datatype FileContent = Unreadable | Document(doc: Json)

  /** How writing one file goes: it succeeds; `open` fails, so the file is
      untouched; or the write breaks off after `open` truncated the file. */
  datatype WriteFault = NoFault | OpenFails | WriteFails

  type Directory = map<string, FileContent>

  function FileName(key: string): (r: string)
    ensures |r| == |key| + 5 && r[..|key|] == key && r[|key|..] == ".json"
  {
    key + ".json"
  }

  /** The names the pattern "*.json" matches. */
  predicate IsJsonName(name: string) {
    |name| >= 5 && name[|name| - 5..] == ".json"
  }

  /** Distinct keys live in distinct files, all of them matched by "*.json". */
  lemma FileNameInjective(k1: string, k2: string)
    ensures FileName(k1) == FileName(k2) <==> k1 == k2
    ensures IsJsonName(FileName(k1))
  {
    assert FileName(k1)[..|k1|] == k1;
    assert FileName(k2)[..|k2|] == k2;
    assert FileName(k1)[|k1|..] == ".json";
  }

  /** The document `set` writes. */
  function Envelope(data: Json, stamp: string): (r: Json)
    ensures r.JObject? && Get(r.fields, "timestamp") == Some(JStr(stamp)) && Get(r.fields, "data") == Some(data)
  {
    JObject([("timestamp", JStr(stamp)), ("data", data)])
  }

  /** `get(key, max_age_hours)` at clock `now`: None when the file is missing,
      is not JSON, is not an object, has no textual timestamp that `parse`
      accepts, or is older than the limit (strictly more than
      `max_age_hours` hours); otherwise the stored `data`, where a stored
      null or a missing `data` reads as None too. */
  function Read(files: Directory, key: string, maxAgeHours: int, now: int,
                parse: string -> Option<int>): (r: Option<Json>)
    ensures FileName(key) !in files ==> r == None
    ensures r.Some? ==> r.value != JNull
    ensures r.Some? ==>
              var content := files[FileName(key)];
              && content.Document? && content.doc.JObject?
              && Get(content.doc.fields, "data") == r
              && var stamp := Get(content.doc.fields, "timestamp");
              && stamp.Some? && stamp.value.JStr? && parse(stamp.value.s).Some?
              && now - parse(stamp.value.s).value <= maxAgeHours * SecondsPerHour
  {
    var name := FileName(key);
    if name !in files || files[name].Unreadable? || !files[name].doc.JObject? then None
    else
      var fields := files[name].doc.fields;
      var stamp := Get(fields, "timestamp");
      if stamp.None? || !stamp.value.JStr? then None
      else
        var t := parse(stamp.value.s);
        if t.None? || now - t.value > maxAgeHours * SecondsPerHour then None
        else
          var data := Get(fields, "data");
          if data.None? || data.value == JNull then None else data
  }

  /** The directory after `set(key, data)` with the given fault; only the
      key's own file can change. */
  function Written(files: Directory, key: string, data: Json, stamp: string,
                   fault: WriteFault): (r: Directory)
    ensures forall n :: n != FileName(key) ==>
              (n in r <==> n in files) && (n in r ==> r[n] == files[n])
    ensures fault == NoFault ==> FileName(key) in r && r[FileName(key)] == Document(Envelope(data, stamp))
    ensures fault == OpenFails ==> r == files
    ensures fault == WriteFails ==> FileName(key) in r && r[FileName(key)] == Unreadable
  {
    match fault
    case NoFault => files[FileName(key) := Document(Envelope(data, stamp))]
    case OpenFails => files
    case WriteFails => files[FileName(key) := Unreadable]
  }

  /** What `set` reports: a failed write is raised again. */
  function SetOutcome(fault: WriteFault): Outcome<Error> {
    if fault == NoFault then Pass else Fail(IOError)
  }

  /** The directory after `clear(key)`: a truthy key removes its file if
      there is one; None or "" removes every file matching "*.json" and keeps
      anything else in the directory. */
  function ClearedFiles(files: Directory, key: Option<string>): (r: Directory)
    ensures forall n :: n in r ==> n in files && r[n] == files[n]
    ensures key.Some? && key.value != "" ==>
              forall n :: n in files ==> (n in r <==> n != FileName(key.value))
    ensures key.None? || key.value == "" ==>
              forall n :: n in files ==> (n in r <==> !IsJsonName(n))
  {
    if key.Some? && key.value != "" then files - {FileName(key.value)}
    else map n | n in files && !IsJsonName(n) :: files[n]
  }

  /** A successful `set` followed by `get`: the value comes back exactly
      while its age is within the limit (an age equal to the limit is still
      fresh), unless it is null, which reads as None. Other keys read as
      before. */
  lemma SetThenGet(files: Directory, key: string, data: Json, written: int,
                   format: int -> string, parse: string -> Option<int>,
                   other: string, maxAgeHours: int, now: int)
    requires parse(format(written)) == Some(written)
    ensures var after := Written(files, key, data, format(written), NoFault);
            && (Read(after, key, maxAgeHours, now, parse) == Some(data) <==>
                  now - written <= maxAgeHours * SecondsPerHour && data != JNull)
            && (Read(after, key, maxAgeHours, now, parse).None? <==>
                  now - written > maxAgeHours * SecondsPerHour || data == JNull)
            && (other != key ==> Read(after, other, maxAgeHours, now, parse) == Read(files, other, maxAgeHours, now, parse))
  {
    var fields := [("timestamp", JStr(format(written))), ("data", data)];
    assert Get(fields, "data") == Some(data);
    assert Get(fields, "timestamp") == Some(JStr(format(written))) by {
      assert fields[..1] == [("timestamp", JStr(format(written)))];
    }
    FileNameInjective(key, other);
  }

  /** A write that breaks off leaves a file that reads as absent, as does
      any file that is not a JSON object with a parseable timestamp. */
  lemma MalformedReadsAbsent(files: Directory, key: string, data: Json, stamp: string,
                             maxAgeHours: int, now: int, parse: string -> Option<int>)
    ensures Read(Written(files, key, data, stamp, WriteFails), key, maxAgeHours, now, parse) == None
    ensures FileName(key) in files && (files[FileName(key)].Unreadable? || !files[FileName(key)].doc.JObject?) ==>
              Read(files, key, maxAgeHours, now, parse) == None
    ensures FileName(key) in files && files[FileName(key)].Document? && files[FileName(key)].doc.JObject? &&
            Get(files[FileName(key)].doc.fields, "timestamp").None? ==>
              Read(files, key, maxAgeHours, now, parse) == None
  {
  }

  /** `clear(key)` forgets that key only; `clear()` forgets every key. */
  lemma ClearForgets(files: Directory, key: Option<string>, other: string,
                     maxAgeHours: int, now: int, parse: string -> Option<int>)
    ensures key.Some? && key.value != "" ==>
              Read(ClearedFiles(files, key), key.value, maxAgeHours, now, parse) == None &&
              (other != key.value ==>
                 Read(ClearedFiles(files, key), other, maxAgeHours, now, parse) == Read(files, other, maxAgeHours, now, parse))
    ensures key.None? || key.value == "" ==>
              Read(ClearedFiles(files, key), other, maxAgeHours, now, parse) == None
  {
    FileNameInjective(other, other);
    if key.Some? && key.value != "" {
      FileNameInjective(key.value, other);
    }
  }

  /** The cache manager over its directory. */
  class CacheManager {
    var files: Directory

    constructor (existing: Directory)
      ensures files == existing
    {
      files := existing;
    }

    /** `get(key, max_age_hours)`. */
    method Get(key: string, maxAgeHours: int, now: int, parse: string -> Option<int>)
      returns (r: Option<Json>)
      ensures r == Read(files, key, maxAgeHours, now, parse)
    {
      var name := key + ".json";
      if name !in files {
        return None;
      }
      var content := files[name];
      if content.Unreadable? || !content.doc.JObject? {
        return None;
      }
      var stamp := JsonValue.Get(content.doc.fields, "timestamp");
      if stamp.None? || !stamp.value.JStr? {
        return None;
      }
      var t := parse(stamp.value.s);
      if t.None? || now - t.value > maxAgeHours * SecondsPerHour {
        return None;
      }
      r := JsonValue.Get(content.doc.fields, "data");
      if r.Some? && r.value == JNull {
        r := None;
      }
    }

    /** `set(key, data)` at clock `now`. */
    method Set(key: string, data: Json, now: int, format: int -> string, fault: WriteFault)
      returns (r: Outcome<Error>)
      modifies this
      ensures files == Written(old(files), key, data, format(now), fault)
      ensures r == SetOutcome(fault)
    {
      var name := key + ".json";
      match fault
      case OpenFails =>
        return Fail(IOError);
      case WriteFails =>
        files := files[name := Unreadable];
        return Fail(IOError);
      case NoFault =>
        files := files[name := Document(Envelope(data, format(now)))];
        return Pass;
    }

    /** `clear(key)`: one file, or every "*.json" file one by one. */
    method Clear(key: Option<string>)
      modifies this
      ensures files == ClearedFiles(old(files), key)
    {
      if key.Some? && key.value != "" {
        var name := key.value + ".json";
        if name in files {
          files := files - {name};
        }
        return;
      }
      var doomed := set n | n in files && IsJsonName(n);
      ghost var start := files;
      while doomed != {}
        invariant forall n :: n in doomed ==> n in start && IsJsonName(n)
        invariant forall n :: n in files <==> n in start && (!IsJsonName(n) || n in doomed)
        invariant forall n :: n in files ==> files[n] == start[n]
        decreases |doomed|
      {
        var n :| n in doomed;
        files := files - {n};
        doomed := doomed - {n};
      }
      assert files.Keys == ClearedFiles(start, key).Keys;
    }
  }
}
