/** The in-memory memoizer of backend/app/core/cache.py: `Cache.memoize`
    derives a key from the function name and its arguments and keeps
    `{value, timestamp}` per key; an entry serves calls only while its age is
    below the time-to-live. `Cache.clear` drops one key or everything. The
    clock is passed in as whole seconds. */
module MemoCache {
  import opened Wrappers
  import opened StringOrder
  import opened Strings

  function KwName(kv: (string, string)): string {
    kv.0
  }

  /** `f"{k}:{v}"`. */
  function KwPart(kv: (string, string)): string {
    kv.0 + ":" + kv.1
  }

  function KwParts(kwargs: seq<(string, string)>): (r: seq<string>)
    ensures |r| == |kwargs|
  {
    seq(|kwargs|, i requires 0 <= i < |kwargs| => KwPart(kwargs[i]))
  }

  /** The cache key of a call: the function's name, `str(arg)` of each
      positional argument (given here already as text), then `k:v` for the
      keyword arguments in name order, all joined with ":". Keyword names
      are distinct, so sorting the (name, value) pairs orders by name. */
  function Key(name: string, args: seq<string>, kwargs: seq<(string, string)>): string {
    Join([name] + args + KwParts(SortBy(kwargs, KwName)), ":")
  }

  /** The order in which keyword arguments are passed never changes the key. */
  lemma KeyIgnoresKeywordOrder(name: string, args: seq<string>,
                               kwargs: seq<(string, string)>, shuffled: seq<(string, string)>)
    requires multiset(kwargs) == multiset(shuffled) && DistinctKeys(kwargs, KwName)
    ensures Key(name, args, kwargs) == Key(name, args, shuffled)
  {
    SortByIgnoresOrder(kwargs, shuffled, KwName);
  }

  /** The key is not an injective encoding of the call: a positional argument
      holding ":" reads like two arguments, and a keyword argument like two
      positional ones, so such calls share one entry. */
  lemma KeysCanCollide()
    ensures Key("f", ["a:b"], []) == Key("f", ["a", "b"], [])
    ensures Key("f", [], [("a", "b")]) == Key("f", ["a", "b"], [])
  {
    assert SortBy<(string, string)>([], KwName) == [];
    assert SortBy([("a", "b")], KwName) == [("a", "b")];
    assert KwParts([("a", "b")]) == ["a:b"] by {
      assert KwPart(("a", "b")) == "a:b";
      assert KwParts([("a", "b")])[0] == KwPart(("a", "b"));
    }
    assert ["f"] + ["a:b"] + KwParts([]) == ["f", "a:b"];
    assert ["f"] + ["a", "b"] + KwParts([]) == ["f", "a", "b"];
    assert ["f"] + [] + KwParts([("a", "b")]) == ["f", "a:b"];
    assert Join(["b"], ":") == "b";
    assert Join(["a", "b"], ":") == "a:b" by { assert ["a", "b"][1..] == ["b"]; }
    assert Join(["f", "a", "b"], ":") == "f:a:b" by { assert ["f", "a", "b"][1..] == ["a", "b"]; }
    assert Join(["f", "a:b"], ":") == "f:a:b" by { assert ["f", "a:b"][1..] == ["a:b"]; }
  }

  datatype Entry<V> = Entry(value: V, timestamp: int)

  /** The stored entry for `key`, if it is still fresh at `now`: its age
      `now − timestamp` must be strictly below `ttl`, so an entry exactly
      `ttl` seconds old is a miss. */
  function Hit<V>(entries: map<string, Entry<V>>, key: string, now: int, ttl: int): (r: Option<V>)
    ensures r.Some? <==> key in entries && now - entries[key].timestamp < ttl
    ensures r.Some? ==> r == Some(entries[key].value)
  {
    if key in entries && now - entries[key].timestamp < ttl then Some(entries[key].value) else None
  }

  /** The entries after the wrapped function ran and returned or raised: a
      result is stored under the key with the time it was stored; an
      exception leaves every entry as it was, a stale one included. */
  function Stored<V>(entries: map<string, Entry<V>>, key: string, stamp: int,
                     outcome: Result<V, Error>): map<string, Entry<V>> {
    if outcome.Ok? then entries[key := Entry(outcome.value, stamp)] else entries
  }

  /** A successful call makes the next call with the same key a hit for as
      long as the new entry is younger than `ttl`, returning the stored
      result; other keys read as before. */
  lemma StoredThenHit<V>(entries: map<string, Entry<V>>, key: string, stamp: int, v: V,
                         other: string, now: int, ttl: int)
    ensures var after := Stored(entries, key, stamp, Ok(v));
            (Hit(after, key, now, ttl) == Some(v) <==> now - stamp < ttl) &&
            (other != key ==> Hit(after, other, now, ttl) == Hit(entries, other, now, ttl))
  {
  }

  /** `clear(key)`: a truthy key removes that entry (if present) and nothing
      else; None or "" empties the cache. */
  function Cleared<V>(entries: map<string, Entry<V>>, key: Option<string>): (r: map<string, Entry<V>>)
    ensures key.Some? && key.value != "" ==>
              (forall k :: k in r <==> k in entries && k != key.value) &&
              (forall k :: k in r ==> r[k] == entries[k])
    ensures key.None? || key.value == "" ==> r == map[]
  {
    if key.Some? && key.value != "" then entries - {key.value} else map[]
  }

  /** The cache object. */
  class Cache<V> {
    var entries: map<string, Entry<V>>

    constructor ()
      ensures entries == map[]
    {
      entries := map[];
    }

    /** The memoized wrapper for one call. `now` is the clock when the entry
        is checked, `stamp` the clock after the wrapped function returned,
        and `outcome` what the function returns or raises; `called` tells
        whether the function was run. */
    method Call(name: string, args: seq<string>, kwargs: seq<(string, string)>, ttl: int,
                now: int, stamp: int, outcome: Result<V, Error>) returns (r: Result<V, Error>, called: bool)
      modifies this
      ensures var key := Key(name, args, kwargs);
              && (called <==> Hit(old(entries), key, now, ttl).None?)
              && (!called ==> r == Ok(old(entries)[key].value) && entries == old(entries))
              && (called ==> r == outcome && entries == Stored(old(entries), key, stamp, outcome))
    {
      var key := Key(name, args, kwargs);
      if key in entries {
        var entry := entries[key];
        if now - entry.timestamp < ttl {
          return Ok(entry.value), false;
        }
      }
      called := true;
      r := outcome;
      if outcome.Ok? {
        entries := entries[key := Entry(outcome.value, stamp)];
      }
    }

    /** Two identical calls, the second made while the first one's entry is
        younger than `ttl`: the function runs once and both calls return its
        result. */
    method CallTwice(name: string, args: seq<string>, kwargs: seq<(string, string)>, ttl: int,
                     t1: int, s1: int, t2: int, s2: int, v: V, second: Result<V, Error>)
      returns (r1: Result<V, Error>, r2: Result<V, Error>, runs: nat)
      requires Hit(entries, Key(name, args, kwargs), t1, ttl).None?
      requires t2 - s1 < ttl
      modifies this
      ensures runs == 1 && r1 == Ok(v) && r2 == Ok(v)
    {
      var c1, c2;
      r1, c1 := Call(name, args, kwargs, ttl, t1, s1, Ok(v));
      r2, c2 := Call(name, args, kwargs, ttl, t2, s2, second);
      runs := (if c1 then 1 else 0) + (if c2 then 1 else 0);
    }

    method Clear(key: Option<string>)
      modifies this
      ensures entries == Cleared(old(entries), key)
    {
      if key.Some? && key.value != "" {
        if key.value in entries {
          entries := entries - {key.value};
        }
      } else {
        entries := map[];
      }
    }
  }
}
