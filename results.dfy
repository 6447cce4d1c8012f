/** Optional values, failure-compatible results and the error kinds of the calver package. */
module Results {

  datatype Option<T> = None | Some(value: T)

  /** The errors the package reports; their message text is not modelled. */
  datatype Error =
    | NoValue(token: string, value: string) // a token could not take its value from the input
    | Unparsed                              // input is left over after the whole layout was walked
    | NotInLayout(token: string)            // a bump or modifier names a field the layout lacks
    | Older                                 // the new time is earlier than the version's time
    | CannotBump                            // no MAJOR, MINOR or MICRO to bump
    | NoVersions                            // Latest of an empty collection

  datatype Result<T> = Ok(value: T) | Err(error: Error) {
    predicate IsFailure() { Err? }

    function PropagateFailure<U>(): Result<U>
      requires Err?
    {
      Err(error)
    }

    function Extract(): T
      requires Ok?
    {
      value
    }
  }
}
