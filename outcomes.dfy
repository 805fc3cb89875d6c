/** Outcomes of the operation constructors and code generators: a value or
    the error the Python code raises. The source raises `ValueError` for its
    own checks and lets `KeyError`, `IndexError`, `TypeError` and
    `AttributeError` escape from dictionary and attribute accesses; the model
    keeps one failure value per kind of cause, not per exception class. */
module Outcomes {

  datatype Option<+T> = None | Some(value: T)

  datatype Failure =
    | MissingParameter(name: string)   // "Parameter '...' must be informed"
    | InvalidParameter(name: string)   // a value outside its domain ("must be x>0", "Invalid ...")
    | RuntimeFault(what: string)       // an error raised by Python itself (missing key, bad index, wrong type)

  datatype Result<+T> = Ok(value: T) | Err(error: Failure) {
    predicate IsFailure() {
      Err?
    }

    function PropagateFailure<U>(): Result<U>
      requires Err?
    {
      Err(error)
    }

    function Extract(): T
      requires Ok?
    {
      value
    }
  }

  /** The result of a check that only passes or raises. */
  datatype Outcome = Pass | Fail(error: Failure)
}
