/** Option and Result for the error paths of the codecs. */
module Wrappers {

  datatype Option<+T> = None | Some(value: T)

  /** The failure kinds a Read or Write can abort with. */
  datatype Error =
    | FormatError   // a required chunk is absent or too short for its fixed layout
    | IndexError    // an index points outside the array or pool it addresses

  datatype Result<+T> = Ok(value: T) | Err(error: Error)
  {
    predicate IsFailure()
    {
      Err?
    }

    function PropagateFailure<U>(): Result<U>
      requires Err?
    {
      Err(error)
    }

    function Extract(): T
      requires Ok?
    {
      value
    }
  }
}
