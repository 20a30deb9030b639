/** Option and Result, and the exceptions the embedding entry points can raise. */
module Outcomes {

  datatype Option<+T> = None | Some(value: T)

  /** The failures an entry point can end in.  Python raises all of the first
      three as exceptions; the model returns them. */
  datatype Error =
    | ValueError(message: string)  // an explicit `raise ValueError(...)` in the embedding code
    | UnpackMismatch(got: nat)     // Python's ValueError from `[x] = xs` when `xs` does not hold exactly one value
    | IndexError                   // indexing `[0]` into an empty list
    | ScopeRejected                // the output-document scope refused the objects it was given
    | CollaboratorFailed(code: nat) // raised inside the output-document scope or the serializer

  datatype Result<+T> = Ok(value: T) | Err(error: Error) {

    predicate IsFailure() {
      Err?
    }

    function PropagateFailure<U>(): Result<U>
      requires Err?
    {
      Err(error)
    }

    function Extract(): T
      requires Ok?
    {
      value
    }
  }
}
