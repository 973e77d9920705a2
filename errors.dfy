/** Failure-carrying values shared by the whole model.  A Python exception that
    the source raises (or lets escape) becomes an `Err` carrying its kind. */
module Errors {

  datatype Option<T> = None | Some(value: T)

  /** The kinds of exception the modelled code can raise. */
  datatype Error =
    | ValueError       // malformed text handed to a parser
    | IndexError       // `xs[0]`, `xs[-1]`, `s[0]` or `random.choice` on an empty sequence
    | KeyError         // a missing dictionary key
    | TypeError        // a constructor called without one of its required arguments,
                       // or a loop over the `None` a function without `return` gives
    | AssertionError   // a failed `assert`
    | GenerationFailed // `Exception("Failed to generate valid dialogue after N attempts")`
    | RemoteAborted    // `Exception("Invalid generation on remote API; ...")`
    | InvalidPerformer // `Exception("Invalid performer type.")`
    | PerformerNotFound // `Exception("Performer", name, "not found in performance.")`

  datatype Result<T> = Ok(value: T) | Err(error: Error)

  datatype Unit = Unit
}
