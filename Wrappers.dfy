/** Option and Result types for the error paths the Python code takes by
    raising or by leaving a value out. */
module Wrappers {

  datatype Option<+T> = None | Some(value: T)

  /** The ways the modelled Python code stops abnormally. */
  datatype Fault =
    | IndexError          // `xs[0]` or `xs[-1]` on an empty list
    | ZeroDivisionError   // `//` by zero
    | Exit                // `print(...); exit()`

  datatype Result<+T> = Ok(value: T) | Err(fault: Fault)
}
