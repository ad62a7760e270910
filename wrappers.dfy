/** Option, Result and Outcome: how the model writes Python's None, raised
    exceptions and "returned normally". */
module Wrappers {

  datatype Option<+T> = None | Some(value: T)

  datatype Result<+T, +E> = Ok(value: T) | Err(error: E)

  datatype Outcome<+E> = Pass | Fail(error: E)

  /** Puts the items already collected in front of what a later step
      collects; a failure of the later step is the failure of the whole. */
  function PrependOk<T, E>(done: seq<T>, later: Result<seq<T>, E>): (r: Result<seq<T>, E>)
    ensures later.Err? <==> r.Err?
    ensures later.Err? ==> r.error == later.error
    ensures later.Ok? ==> r.value == done + later.value
  {
    match later
    case Ok(rest) => Ok(done + rest)
    case Err(e) => Err(e)
  }

  lemma PrependNothing<T, E>(later: Result<seq<T>, E>)
    ensures PrependOk([], later) == later
  {
    if later.Ok? {
      assert [] + later.value == later.value;
    }
  }

  lemma PrependTwice<T, E>(a: seq<T>, b: seq<T>, later: Result<seq<T>, E>)
    ensures PrependOk(a, PrependOk(b, later)) == PrependOk(a + b, later)
  {
    if later.Ok? {
      assert a + (b + later.value) == (a + b) + later.value;
    }
  }

  /** The exceptions the modelled code raises or lets through. */
  datatype Error =
    | ZeroDivision          // Python's ZeroDivisionError
    | KeyError(key: string) // a missing DataFrame column or dict key
    | TypeError             // e.g. iterating over a number
    | AttributeError        // e.g. `.get` on something that is not a dict
    | ValueError            // e.g. an unexpected validator input
    | DecodeError           // json.load on a malformed file
    | IOError               // open or write on a cache file failed
    | Upstream(what: string) // a failure raised by the market-data provider
}
