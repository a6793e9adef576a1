/** Results that carry either a value or the error the dashboard's Python code would raise. */
module Wrappers {

  /** A value, or the exception that stopped the computation. */
  datatype Result<+T, +E> = Ok(value: T) | Err(error: E)

  /** Python's KeyError: the keys that a dict lookup or a DataFrame column selection did not find. */
  datatype KeyError = KeyError(keys: seq<string>)

  /** The names a sequence of names lists, as a set. */
  function Names(s: seq<string>): set<string>
  {
    set c | c in s
  }
}
