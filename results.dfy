// Failure-compatible results and the errors the log's operations throw.
module Results {

  datatype Option<+T> = None | Some(value: T)

  /** Every way an operation of the log can fail; each variant is one `throw` site (or a TypeError). */
  datatype Error =
    | NoLinkHeader(target: string)       // a HEAD response carried no Link header
    | NoInboxLink                        // the root's Link header has no ldp:inbox entry
    | NoConstrainedByLink                // the inbox's Link header has no ldp:constrainedBy entry
    | NotInitialised                     // the shape IRI was read before it was discovered
    | FetchFailed(target: string)        // a GET did not answer 200
    | NoTreePath                         // the index graph holds no tree:path triple
    | MissingTriple(property: string)   // a lookup indexed [0] into an empty match
    | AlreadyExists(target: string)      // a container PUT answered 205
    | NotCreated(target: string, status: int)
    | Rejected(target: string, status: int)  // any other step answered an unexpected status

  datatype Result<+T> = Ok(value: T) | Err(error: Error) {
    predicate IsFailure() { Err? }

    function PropagateFailure<U>(): Result<U>
      requires Err?
    {
      Err(error)
    }

    function Extract(): T
      requires Ok?
    {
      value
    }
  }
}
