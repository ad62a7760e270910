/** The `BACKEND_CORS_ORIGINS` validator of backend/app/core/config.py
    (`Settings.assemble_cors_origins`): a comma-separated string becomes the
    list of its stripped pieces; a JSON-looking string or a list passes
    through; anything else is rejected. */
module CorsConfig {
  import opened Wrappers
  import opened Strings

  /** The value the validator receives and returns. */
  datatype Value = Str(s: string) | List(items: seq<string>) | Other

  /** Python's `str.isspace` for one character. */
  predicate IsSpace(c: char) {
    || c == ' ' || c == '\t' || c == '\n' || c == '\r' || c == '\U{000B}' || c == '\U{000C}'
    || ('\U{001C}' <= c <= '\U{001F}') || c == '\U{0085}' || c == '\U{00A0}' || c == '\U{1680}'
    || ('\U{2000}' <= c <= '\U{200A}') || c == '\U{2028}' || c == '\U{2029}' || c == '\U{202F}'
    || c == '\U{205F}' || c == '\U{3000}'
  }

  /** The number of commas in `s`. */
  function Commas(s: string): nat {
    if s == [] then 0 else (if s[0] == ',' then 1 else 0) + Commas(s[1..])
  }

  /** `s.split(",")`: the pieces between commas, empty ones included. */
  function Split(s: string): (r: seq<string>)
    ensures |r| == Commas(s) + 1
    ensures forall k :: 0 <= k < |r| ==> ',' !in r[k]
  {
    if s == [] then [""]
    else
      var rest := Split(s[1..]);
      if s[0] == ',' then [""] + rest
      else [[s[0]] + rest[0]] + rest[1..]
  }

  /** Splitting loses nothing: joining the pieces back gives the string. */
  lemma {:induction false} JoinSplit(s: string)
    ensures Join(Split(s), ",") == s
  {
    if s != [] {
      JoinSplit(s[1..]);
      var rest := Split(s[1..]);
      if s[0] == ',' {
        assert Split(s) == [""] + rest;
        assert ([""] + rest)[1..] == rest;
        assert s == [','] + s[1..];
      } else {
        var first := [s[0]] + rest[0];
        assert Split(s) == [first] + rest[1..];
        if |rest| == 1 {
          assert Join(rest, ",") == rest[0];
        } else {
          assert Join(rest, ",") == rest[0] + "," + Join(rest[1..], ",");
          assert ([first] + rest[1..])[1..] == rest[1..];
        }
        assert s == [s[0]] + s[1..];
      }
    }
  }

  /** A string with no comma splits into itself alone. */
  lemma SplitWithoutComma(s: string)
    requires ',' !in s
    ensures Split(s) == [s]
  {
    assert Commas(s) == 0 by { NoCommaCount(s); }
    JoinSplit(s);
  }

  lemma {:induction false} NoCommaCount(s: string)
    requires ',' !in s
    ensures Commas(s) == 0
  {
    if s != [] {
      assert ',' !in s[1..] by {
        forall k | 0 <= k < |s[1..]| ensures s[1..][k] != ',' {
          assert s[1..][k] == s[k + 1];
        }
      }
      NoCommaCount(s[1..]);
    }
  }

  /** `s.strip()`: the string without its leading and trailing whitespace. */
  function Strip(s: string): (r: string)
    ensures exists i, j :: 0 <= i <= j <= |s| && r == s[i..j] &&
              (forall k :: 0 <= k < i ==> IsSpace(s[k])) &&
              (forall k :: j <= k < |s| ==> IsSpace(s[k]))
    ensures r != [] ==> !IsSpace(r[0]) && !IsSpace(r[|r| - 1])
  {
    var i := LeadingSpaces(s, 0);
    var j := TrailingEnd(s, i, |s|);
    s[i..j]
  }

  /** The first position at or after `i` that is not whitespace. */
  function LeadingSpaces(s: string, i: nat): (r: nat)
    requires i <= |s|
    requires forall k :: 0 <= k < i ==> IsSpace(s[k])
    ensures i <= r <= |s|
    ensures forall k :: 0 <= k < r ==> IsSpace(s[k])
    ensures r < |s| ==> !IsSpace(s[r])
    decreases |s| - i
  {
    if i == |s| || !IsSpace(s[i]) then i else LeadingSpaces(s, i + 1)
  }

  /** The end of `s[lo..]` once trailing whitespace after `j` is dropped. */
  function TrailingEnd(s: string, lo: nat, j: nat): (r: nat)
    requires lo <= j <= |s|
    requires forall k :: j <= k < |s| ==> IsSpace(s[k])
    ensures lo <= r <= j
    ensures forall k :: r <= k < |s| ==> IsSpace(s[k])
    ensures r > lo ==> !IsSpace(s[r - 1])
    decreases j
  {
    if j == lo || !IsSpace(s[j - 1]) then j else TrailingEnd(s, lo, j - 1)
  }

  /** Stripping twice changes nothing more. */
  lemma StripIdempotent(s: string)
    ensures Strip(Strip(s)) == Strip(s)
  {
    var t := Strip(s);
    if t != [] {
      assert LeadingSpaces(t, 0) == 0;
      assert TrailingEnd(t, 0, |t|) == |t|;
      assert t[0..|t|] == t;
    } else {
      assert Strip(t) == t[0..0];
    }
  }

  predicate StartsWithBracket(s: string) {
    |s| > 0 && s[0] == '['
  }

  /** The validator. */
  function AssembleCorsOrigins(v: Value): (r: Result<Value, Error>)
    ensures v.Other? <==> r.Err?
    ensures r.Err? ==> r.error == ValueError
    ensures v.List? || (v.Str? && StartsWithBracket(v.s)) ==> r == Ok(v)
    ensures v.Str? && !StartsWithBracket(v.s) ==>
              && r.Ok? && r.value.List?
              && |r.value.items| == Commas(v.s) + 1
              && forall k :: 0 <= k < |r.value.items| ==> r.value.items[k] == Strip(Split(v.s)[k])
  {
    match v
    case Str(s) =>
      if !StartsWithBracket(s) then
        var pieces := Split(s);
        Ok(List(seq(|pieces|, k requires 0 <= k < |pieces| => Strip(pieces[k]))))
      else Ok(v)
    case List(_) => Ok(v)
    case Other => Err(ValueError)
  }

  /** What a comma-separated string yields: one origin per comma-separated
      piece, each free of commas and of surrounding whitespace, empty pieces
      kept. */
  lemma OriginsOfCommaList(s: string)
    requires !StartsWithBracket(s)
    ensures var items := AssembleCorsOrigins(Str(s)).value.items;
            && |items| == Commas(s) + 1
            && forall k :: 0 <= k < |items| ==>
                 ',' !in items[k] && (items[k] != [] ==> !IsSpace(items[k][0]) && !IsSpace(items[k][|items[k]| - 1]))
  {
    var pieces := Split(s);
    var items := AssembleCorsOrigins(Str(s)).value.items;
    forall k | 0 <= k < |items| ensures ',' !in items[k] {
      var i, j :| 0 <= i <= j <= |pieces[k]| && items[k] == pieces[k][i..j];
      assert ',' !in pieces[k];
      forall m | 0 <= m < |items[k]| ensures items[k][m] != ',' {
        assert items[k][m] == pieces[k][i + m];
      }
    }
  }

  /** Splitting a comma-free head off at its comma. */
  lemma {:induction false} SplitAtComma(a: string, b: string)
    requires ',' !in a
    ensures Split(a + [','] + b) == [a] + Split(b)
  {
    if a != [] {
      assert ',' !in a[1..] by {
        forall k | 0 <= k < |a[1..]| ensures a[1..][k] != ',' {
          assert a[1..][k] == a[k + 1];
        }
      }
      SplitAtComma(a[1..], b);
      assert (a + [','] + b)[1..] == a[1..] + [','] + b;
      assert [a[0]] + a[1..] == a;
    } else {
      assert [] + [','] + b == [','] + b;
      assert ([','] + b)[1..] == b;
    }
  }

  /** Joining comma-free pieces and splitting again gives the pieces back. */
  lemma {:induction false} SplitJoin(pieces: seq<string>)
    requires |pieces| > 0 && forall k :: 0 <= k < |pieces| ==> ',' !in pieces[k]
    ensures Split(Join(pieces, ",")) == pieces
    decreases |pieces|
  {
    if |pieces| == 1 {
      SplitWithoutComma(pieces[0]);
    } else {
      SplitJoin(pieces[1..]);
      assert Join(pieces, ",") == pieces[0] + [','] + Join(pieces[1..], ",");
      SplitAtComma(pieces[0], Join(pieces[1..], ","));
    }
  }

  /** A string without surrounding whitespace is its own strip. */
  lemma StripClean(t: string)
    requires t != [] ==> !IsSpace(t[0]) && !IsSpace(t[|t| - 1])
    ensures Strip(t) == t
  {
    if t != [] {
      assert LeadingSpaces(t, 0) == 0;
      assert TrailingEnd(t, 0, |t|) == |t|;
    }
    assert t[0..|t|] == t;
  }

  /** Clean, comma-free origins written as one comma-separated string come
      back from the validator as exactly those origins. */
  lemma CommaListRoundTrip(origins: seq<string>)
    requires |origins| > 0
    requires forall k :: 0 <= k < |origins| ==>
               ',' !in origins[k] && (origins[k] != [] ==> !IsSpace(origins[k][0]) && !IsSpace(origins[k][|origins[k]| - 1]))
    requires !StartsWithBracket(Join(origins, ","))
    ensures AssembleCorsOrigins(Str(Join(origins, ","))) == Ok(List(origins))
  {
    SplitJoin(origins);
    var r := AssembleCorsOrigins(Str(Join(origins, ",")));
    var items := r.value.items;
    assert |items| == |origins|;
    forall k | 0 <= k < |origins| ensures items[k] == origins[k] {
      assert items[k] == Strip(Split(Join(origins, ","))[k]);
      StripClean(origins[k]);
    }
    assert items == origins;
    assert r == Ok(List(items));
  }
}
