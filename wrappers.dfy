/** Optional values and results with an error, the two shapes the evaluator's
    Python code expresses with `None` and with exceptions. */
module Wrappers {

  datatype Option<+T> = None | Some(value: T)

  /** The Python exceptions that escape from the evaluator instead of being
      caught at the query boundary. */
  datatype PyError =
    | IndexError                 // `seq[0]` on an empty list or tuple
    | KeyError(key: string)      // a missing DataFrame column
    | AttributeError(attr: string)  // a method called on a value that lacks it

  datatype Result<+T> = Ok(value: T) | Err(error: PyError)
}
