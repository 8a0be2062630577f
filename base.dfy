/** Option and Result wrappers and the Python exceptions the pipeline can raise. */
module Base {

  datatype Option<+T> = None | Some(value: T)

  /** The exceptions that the modelled code raises or lets propagate. */
  datatype Raised =
    | IndexError(what: string)           // `[-1]` on an empty stream query
    | ValueError(what: string)           // strptime, tuple unpacking, `with_suffix`
    | TypeError(what: string)            // a call with the wrong number of arguments
    | OSError(what: string)              // a failed download, decode or encode
    | FileNotFoundError(path: string)    // `os.remove` on a missing path
    | UnboundLocalError(name: string)    // a local read before it was ever assigned
    | BadParameter(message: string)      // click's `ParamType.fail`

  /** Either a value or the exception raised while computing it. */
  datatype Result<+T> = Ok(value: T) | Err(error: Raised)
}
