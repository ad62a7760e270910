/** The JSON-shaped values the caches store and the provider returns, with
    Python's truthiness and iteration over them. */
module JsonValue {
  import opened Wrappers

  /** An object is a sequence of (name, value) pairs in insertion order, as a
      Python dict keeps them; the names of one object are taken to be distinct. */
  datatype Json =
    | JNull
    | JBool(b: bool)
    | JNum(n: real)
    | JStr(s: string)
    | JList(items: seq<Json>)
    | JObject(fields: seq<(string, Json)>)

  /** Python's `bool(v)`: None, False, 0, "", [] and {} are falsy. */
  predicate Truthy(j: Json) {
    match j
    case JNull => false
    case JBool(b) => b
    case JNum(n) => n != 0.0
    case JStr(s) => s != ""
    case JList(xs) => xs != []
    case JObject(fs) => fs != []
  }

  /** `d.get(name)` on a dict: the value stored under `name`, or None. */
  function Get(fields: seq<(string, Json)>, name: string): (r: Option<Json>)
    ensures r.Some? <==> exists i :: 0 <= i < |fields| && fields[i].0 == name
    ensures r.Some? ==> exists i :: 0 <= i < |fields| && fields[i] == (name, r.value)
  {
    if fields == [] then None
    else if fields[|fields| - 1].0 == name then Some(fields[|fields| - 1].1)
    else
      var r := Get(fields[..|fields| - 1], name);
      assert forall i :: 0 <= i < |fields| - 1 ==> fields[..|fields| - 1][i] == fields[i];
      r
  }

  /** The items `for item in v` visits: the elements of a list, the
      one-character strings of a string, the names of a dict; anything else is
      not iterable and raises TypeError. */
  function Items(j: Json): (r: Result<seq<Json>, Error>)
    ensures r.Err? <==> (j.JNull? || j.JBool? || j.JNum?)
    ensures j.JList? ==> r == Ok(j.items)
    ensures j.JStr? ==> r.Ok? && |r.value| == |j.s| && forall i :: 0 <= i < |j.s| ==> r.value[i] == JStr([j.s[i]])
    ensures j.JObject? ==> r.Ok? && |r.value| == |j.fields| && forall i :: 0 <= i < |j.fields| ==> r.value[i] == JStr(j.fields[i].0)
  {
    match j
    case JList(xs) => Ok(xs)
    case JStr(s) => Ok(seq(|s|, i requires 0 <= i < |s| => JStr([s[i]])))
    case JObject(fs) => Ok(seq(|fs|, i requires 0 <= i < |fs| => JStr(fs[i].0)))
    case _ => Err(TypeError)
  }

  /** Python's `str(v)` on a value: a string is itself; for any other value the
      textual form is given by `show`, which stands for Python's repr rules. */
  function Text(j: Json, show: Json -> string): string
  {
    if j.JStr? then j.s else show(j)
  }
}
