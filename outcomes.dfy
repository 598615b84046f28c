/** Option and Result values: the model's stand-in for null references and for
    exceptions that the converter throws and (sometimes) catches. */
module Outcomes {

  datatype Option<+T> = None | Some(value: T)

  /** `Failure` carries the fault that a .NET exception would have carried. */
  datatype Result<+T, +E> = Success(value: T) | Failure(error: E)
}
