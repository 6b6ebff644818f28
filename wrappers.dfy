/** Option and Result, the two failure-carrying shapes used throughout the model. */
module Wrappers {

  /** Java's Optional: empty, or holding a value. */
  datatype Option<+T> = None | Some(value: T)

  /** A computation that either produces a value or raises an error. */
  datatype Result<+T, +E> = Ok(value: T) | Err(error: E) {

    predicate IsFailure() {
      Err?
    }

    function PropagateFailure<U>(): Result<U, E>
      requires Err?
    {
      Err(error)
    }

    function Extract(): T
      requires Ok?
    {
      value
    }

    /** The value, forgetting the error. */
    function ToOption(): (r: Option<T>)
      ensures r.Some? <==> Ok?
      ensures r.Some? ==> r.value == value
    {
      match this
      case Ok(v) => Some(v)
      case Err(_) => None
    }
  }
}

/** The exceptions the core raises or catches, one constructor per kind. */
module Faults {
  import opened Wrappers

  datatype Fault =
    | NoSuchElement          // Optional.get() on an empty Optional: no candidate name was defined
    | FileUnreadable         // RuntimeException wrapping the IOException of a missing or unreadable file
    | ProviderFailed         // an AWS SDK credentials provider could not supply credentials
    | AssumeRoleFailed       // the STS assumeRole call threw
    | ChainExhausted         // AmazonClientException: no provider of a chain succeeded
    | NumberFormat           // Integer.parseInt rejected the https.proxyPort property
    | UnknownHost            // the DNS lookup failed (rethrown as a RuntimeException)
    | InvalidS3Uri           // AmazonS3URI rejected a well-formed URI (IllegalArgumentException)
    | S3Error(status: int)   // AmazonS3Exception carrying this HTTP status code
    | ClientFailure          // any other failure of an S3 call
    | TruncatedListing       // list() refuses a listing that the service marked truncated
    | IllegalState           // Matcher.group asked for before any match was attempted

  /** The outcome of a step that can throw one of the faults above. */
  type Outcome<T> = Result<T, Fault>
}
