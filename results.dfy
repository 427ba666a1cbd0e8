/** The optional values, errors and failure-carrying results shared by the model. */
module Results {

  datatype Option<T> = None | Some(value: T)

  /** An error as the controller sees it. Errors produced by collaborators the
      model does not look into (listers, the scheme converter) are opaque
      `Failure`s that the reconciler passes on unchanged. */
  datatype Error =
    | KeyFormatError(key: string)
    | Failure(reason: string)

  datatype Result<T> = Ok(value: T) | Err(error: Error)
}
