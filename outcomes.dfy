/** The two ways an operation of the model can end: with a value, or with
    the exception the C# code throws. */
module Outcomes {

  datatype Option<T> = None | Some(value: T)

  /** The exceptions of the modelled code that callers can observe. */
  datatype Failure =
    | AlreadyLabelled          // `UpdateModel`: "The selected index is already in the labelled set."
    | ArgumentOutOfRange       // `SplitTrainTest`'s proportion check, or a `List` index past the end
    | IndexOutOfRange          // an array read or write past the end
    | Overflow                 // `new T[n]` with a negative `n`
    | EmptySequence            // `First()` or `Average()` on an empty sequence
    | NoLearners               // `RunActive`: "Active Learner not provided"
    | ImproperMessage          // the classifier's message passing failed and nothing caught it
    | ArgumentNull             // a LINQ operator applied to a null sequence
    | NullReference            // a member read through a null reference

  datatype Result<T> = Ok(value: T) | Err(failure: Failure)

  /** The outcome of an operation that returns nothing. */
  datatype Status = Success | Failed(failure: Failure)
}
