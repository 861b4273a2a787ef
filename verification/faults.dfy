/** The three Python exceptions the evaluator can raise, and a result type that
    carries either a value or one of them. Failures propagate unchanged, so the
    first exception raised is the one the caller sees. */
module Faults {

  /** ValueError: Division.perform found a zero divisor.
      IndexError: a pop from an empty list, `operator_stack[-1]` on an empty
      stack, or `numbers[0]` on an empty operand list.
      KeyError: `'('` looked up in the table of registered operations. */
  datatype Error = ValueError | IndexError | KeyError

  datatype Result<+T> = Ok(value: T) | Err(error: Error) {

    predicate IsFailure() {
      Err?
    }

    function PropagateFailure<U>(): Result<U>
      requires Err?
    {
      Err(error)
    }

    function Extract(): T
      requires Ok?
    {
      value
    }
  }
}
