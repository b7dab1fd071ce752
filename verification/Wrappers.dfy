/** Results of operations that may raise, as the Python code does. */
module Wrappers {
  datatype Option<+T> = None | Some(value: T)

  /** The exceptions the modelled code can raise. */
  datatype Fault =
    | StructError     // struct.pack / struct.unpack on a wrong size
    | UnicodeError    // str.encode("latin1") on a character above 255
    | ValueFault
    | KeyFault
    | RuntimeFault
    | OverflowFault   // int.to_bytes on a number that does not fit
    | ZstdFault

  datatype Result<+T> = Ok(value: T) | Err(fault: Fault) {
    predicate IsFailure() {
      Err?
    }

    function PropagateFailure<U>(): Result<U>
      requires Err?
    {
      Err(fault)
    }

    function Extract(): T
      requires Ok?
    {
      value
    }
  }
}
