/** Shared building blocks of the BART client model: an optional value,
    the uncaught lookup failures the client can raise, and the record of
    what one client call printed. */
module Common {

  /** A value that may be absent; Python's `None` is `None` here. */
  datatype Option<+T> = None | Some(value: T)

  /** The uncaught exception a client call ends with when the decoded
      response does not have the shape the code walks. */
  datatype Fault =
    | MissingKey(key: string)       // a `KeyError` on a mapping lookup
    | NotIterable(key: string)      // a `for` loop over `None`
    | NotSubscriptable(key: string) // indexing a falsy scalar such as `""`

  /** What one call printed, as structured records in print order, and the
      exception it stopped with, if any.  Records printed before the
      exception are kept, as they are on a terminal. */
  datatype Run<+T> = Run(lines: seq<T>, fault: Option<Fault>)

  /** A call that printed nothing and raised nothing. */
  function Silent<T>(): (r: Run<T>)
    ensures r.lines == [] && r.fault == None
  {
    Run([], None)
  }
}
