/** The exceptions the modelled code raises or lets through. */
module Errors {

  datatype Error =
    | ValueError(message: string)    // a caller's contract violation
    | RuntimeError(message: string)  // a backend reply that cannot be turned into an answer
    | TimeoutError                   // a remote call abandoned by `asyncio.wait_for`
    | BackendError(message: string)  // any exception raised inside a backend SDK call
}
