/** Shared vocabulary: optional values, results, and the exceptions the modelled
    code can raise (Python built-in ones and cinder's own). */
module Common {

  /** A Python value that may be `None`. */
  datatype Option<+T> = None | Some(value: T)

  /** The outcome of a call that either returns a value or raises. */
  datatype Result<+T> = Ok(value: T) | Err(error: Exception)

  /** The exceptions that reach the caller of the modelled operations. */
  datatype Exception =
    | NotFound                                   // cinder.exception.NotFound
    | InvalidParameterValue                      // cinder.exception.InvalidParameterValue
    | ISCSITargetCreateFailed(volumeId: string)
    | ISCSITargetRemoveFailed(volumeId: string)
    | ISCSITargetAttachFailed(volumeId: string)
    | ISCSITargetDetachFailed(volumeId: string)
    | ProcessExecutionError                      // the tool exited with a non-zero code
    | IndexError                                 // a split had too few fields for the index used
    | ValueError                                 // a split had the wrong number of fields to unpack
    | KeyError(key: string)                      // `d[key]` on a dict without that key
    | TypeError                                  // `v[key]` on a value that is not a dict
    | AttributeError                             // `.split` called on None
    | UnboundLocalError(name: string)            // a local variable read before assignment
}
