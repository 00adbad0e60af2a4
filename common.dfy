/** Option and Result types shared by every module of the model. */
module Common {

  datatype Option<+T> = None | Some(value: T)

  /** Why an operation failed: a store command refused (Redis reports an error
      for these), or a Python-level exception raised by the calling code. */
  datatype Error =
    | WrongType           // a command applied to a key holding another kind of value
    | NotAnInteger        // INCR/INCRBY or Python int() on a non-integer string
    | InvalidExpireTime   // SET ... EX / SETEX with a non-positive expiry
    | Undecodable         // json.loads / datetime.fromisoformat rejected the stored text
    | NotAString          // a Python string method applied to a non-string JSON value
    | NotAnObject         // a dict method applied to a non-object JSON value
    | Unsupported         // a case whose outcome depends on text this model does not keep
    | UnknownClient       // ValueError for a client id missing from the static table
    | Overflow            // OverflowError: a timedelta beyond its +-999999999 days

  datatype Result<+T> = Ok(value: T) | Err(error: Error)
}
