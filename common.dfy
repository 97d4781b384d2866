/** Values shared by the message builder and the dispatch service: nullable
    references, the exceptions the library lets escape, and the null-or-empty
    test on strings. */
module Common {

  /** A reference that may be null: None stands for null. */
  datatype Option<+T> = None | Some(value: T) {
    function GetOr(default: T): T {
      match this
      case Some(v) => v
      case None => default
    }
  }

  /** The exceptions a call can end with. */
  datatype Fault =
    | ArgumentNull(paramName: string)     // ArgumentNullException
    | Argument(paramName: string)         // ArgumentException
    | AddressRejected(address: string)    // the e-mail address constructor threw
    | NullReference                       // a member was reached through null
    | KeyNotFound(key: string)            // a dictionary indexer was given a missing key

  /** Either the value a call returns or the exception it throws. */
  datatype Result<+T> = Ok(value: T) | Err(fault: Fault)

  /** string.IsNullOrEmpty */
  predicate IsNullOrEmpty(s: Option<string>) {
    s.None? || s.value == ""
  }
}
