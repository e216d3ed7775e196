/** Errors of a run and the failure-compatible result type the interpreter threads
    through every matcher and operator. The source throws a JavaScript Error and the
    whole run stops; here the first Err is passed back to the caller unchanged. */
module Outcomes {

  /** Why a run stopped before the cursor reached the end of its text. */
  datatype Fault =
    | StackUnderflow  // pop or peek on an empty stack, or an operator's arity check failed
    | NoIdentifier    // ':' not followed by a name to bind
    | NotAnArray      // '$' with a block, but no array beneath it
    | BadIndex        // '$' with a number n that is negative or equal to the height
    | Unterminated    // '{', '[' or '"' whose closing delimiter never comes (the source scans forever)
    | Stuck           // no matcher accepts the character at the cursor (the source spins forever)
    | TypeConfused    // an operand of a kind for which the source defines no result
    | Inexact         // '/' whose quotient is not an integer
    | OutOfFuel       // the model's bound on nesting depth and loop iterations is used up

  datatype Option<+T> = None | Some(value: T)

  datatype Result<+T> = Ok(value: T) | Err(error: Fault) {
    predicate IsFailure() {
      Err?
    }

    function PropagateFailure<U>(): Result<U>
      requires Err?
    {
      Err(error)
    }

    function Extract(): T
      requires Ok?
    {
      value
    }
  }
}
