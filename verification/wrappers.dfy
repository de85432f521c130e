module Wrappers {

  datatype Option<+T> = None | Some(value: T)

  /** The classes of the contract's exception hierarchy that callers can tell apart, and the database
      driver's own error, which nothing wraps when it comes out of a transaction's body or COMMIT. */
  datatype Error =
    | NotFound
    | Immutability
    | IdempotencyConflict
    | ContractViolation
    | MetadataStoreError
    | ArtifactStoreError
    | ChecksumMismatch
    | DriverError

  /** A returned value, or the exception raised instead. */
  datatype Result<+T> = Ok(value: T) | Err(error: Error)
}
