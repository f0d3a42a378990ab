/** Values and exceptions: the shapes the model uses for Python calls that may raise. */
module Outcomes {

  /** An exception as the agent sees it. */
  datatype Error =
    | Raised(reason: string)            // raised inside Playwright or the OpenAI client
    | NoneHasNoAttribute(name: string)  // Python's AttributeError for an attribute looked up on None

  /** A nullable value (Python's `Optional`). */
  datatype Option<+T> = None | Some(value: T)

  /** A call that either returned a value or raised an exception. */
  datatype Result<+T> = Ok(value: T) | Err(error: Error) {

    /** The exception the call raised, if it raised one. */
    function Exception(): (e: Option<Error>)
      ensures e.Some? <==> Err?
      ensures Err? ==> e.value == error
    {
      if Err? then Some(error) else None
    }
  }
}
