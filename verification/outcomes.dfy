/** Optional values, results, and the Python exceptions the modelled code can raise. */
module Outcomes {

  datatype Option<+T> = None | Some(value: T)

  /** The exceptions that escape the modelled functions. */
  datatype Exception =
    | KeyError(key: string)          // a missing dictionary key
    | TypeError(message: string)     // an ill-typed comparison such as `"" <= 7`
    | ValueError(message: string)    // raised explicitly by the code
    | AttributeError(message: string) // a method called on None
    | ToolFailure(tool: string)      // an external collaborator raised

  datatype Result<+T> = Ok(value: T) | Err(error: Exception) {
    predicate IsFailure() {
      Err?
    }

    function PropagateFailure<U>(): Result<U>
      requires Err?
    {
      Err(error)
    }

    function Extract(): T
      requires Ok?
    {
      value
    }
  }
}
