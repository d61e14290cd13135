/**
 * What the expansion engine returns when something goes wrong: an error kind
 * for every exception the core raises or lets escape, and the Option/Result
 * wrappers that carry either a value or such an error.
 */
module Outcomes {

  datatype Option<+T> = None | Some(value: T)

  /**
   * The first three kinds carry the user-facing labels of the engine's own
   * errors; the others stand for the Python exceptions that escape the core.
   */
  datatype Error =
    | MissingCase           // no case matched and the default (or its label) is absent
    | IDNotFound            // no item in the variation carries the referenced id
    | NonExistentVariable   // the path after the id could not be followed
    | CaseLengthMismatch    // ValueError: a case's length differs from the number of variables
    | NotComparable         // TypeError: a non-number compared with a number or a range
    | AssertionFailed       // a failed `assert` in the tag or handler code
    | NoHandler             // ValueError: no handler accepts the node
    | UnsupportedOperation  // ValueError: sample/iterate on a ProcIfLabels node
    | EmptyChoice           // random.choice / random.randint over nothing
    | IndexOutOfRange       // IndexError
    | NotFilled             // ValueError: a placeholder indexed before it was filled
    | NotIndexable          // KeyError, IndexError or TypeError from `value[key]`
    | RangeLength           // ValueError: a Range list without exactly two elements
    | RangeOrder            // ValueError: a Range whose minimum exceeds its maximum
    | UnknownMode           // ValueError: a generation mode other than sample/exhaustive
    | IterationExhausted    // next() on the finished exhaustive iteration

  datatype Result<+T> = Ok(value: T) | Err(error: Error) {
    predicate IsFailure() { Err? }
    function PropagateFailure<U>(): Result<U>
      requires Err?
    {
      Err(error)
    }
    function Extract(): T
      requires Ok?
    {
      value
    }
  }
}
