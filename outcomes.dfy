/** Failure values for the .NET exceptions that the layout code lets escape. */
module Outcomes {

  datatype Option<+T> = None | Some(value: T)

  /** The exceptions the chart code can raise, named after their .NET types. */
  datatype Exception =
    | InvalidOperation    // Enumerable.Max on an empty sequence
    | ArgumentOutOfRange  // List<T> indexer past the end
    | NotImplemented      // chart type tag with no builder

  /** The value of an operation, or the exception it raised. */
  datatype Result<+T> = Ok(value: T) | Err(error: Exception)

  /** The completion of an operation that only changes state. */
  datatype Outcome = Pass | Fail(error: Exception)
}
