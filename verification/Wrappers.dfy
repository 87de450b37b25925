// Shared result types.
module Wrappers {
  datatype Option<+T> = None | Some(value: T)

  /** The ways a decoder refuses its input: the library's own error with its
      JSON-RPC code, or an exception of the JSON library (wrong type, missing key). */
  datatype Fault = Coded(code: int) | Shape

  datatype Result<+T> = Ok(value: T) | Err(fault: Fault) {
    predicate IsFailure() {
      Err?
    }

    function PropagateFailure<U>(): Result<U>
      requires Err?
    {
      Err(fault)
    }

    function Extract(): T
      requires Ok?
    {
      value
    }
  }
}
