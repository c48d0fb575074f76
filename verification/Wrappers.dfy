/** The two failure-aware datatypes the other modules share. */
module Wrappers {

  /** A nullable value: the source's `None`. */
  datatype Option<+T> = None | Some(value: T)

  /** A computed value, or the exception the source raises instead. */
  datatype Result<+T> = Ok(value: T) | Raised(error: Exception)

  /** The exceptions that the modelled code can raise. */
  datatype Exception =
    | NotImplementedError
    | IndexError
    | KeyError
    | ValueError
    | NoDataError
    | SinglePathError
    | TypeError
    | AttributeError
    | ZeroDivisionError
    | OverflowError
}
