/** Error values and the failure-carrying wrappers shared by every module. */
module Base {

  /** The errors the modelled code returns. A collaborator's own error is carried
      verbatim as `Cause`; the others are the errors the core itself constructs. */
  datatype Error =
    | Cause(what: string)             // an error returned by a collaborator, passed on unchanged
    | NotServing(host: string)        // errors.Wrap(cc.ErrNotServing, host)
    | EndpointNotServing              // "gRPC endpoint not SERVING"
    | ModelNotConfigured              // "model service not configured"
    | BadConfigName(name: string)     // "<name> must match pattern <RestrictedNamePattern>"

  /** The Go `error` result of an operation without a value. */
  datatype Outcome = Pass | Fail(error: Error)

  /** The Go `(T, error)` result of an operation with a value. */
  datatype Result<T> = Ok(value: T) | Err(error: Error)

  datatype Option<T> = None | Some(value: T)
}
