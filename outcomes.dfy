/** The three error kinds of the pitch-detector crate, and the `Option`/`Result`
    wrappers that the crate (Rust `Result<T, PitchError>`) and the older root
    crate (Rust `Option<T>`) return. Error messages are not modelled. */
module Outcomes {

  /** `PitchError` without its message strings. */
  datatype PitchError = UnexpectedError | IncorrectParameters | NoPitchDetected

  datatype Option<+T> = None | Some(value: T)

  datatype Result<+T> = Ok(value: T) | Err(error: PitchError) {
    /** Rust's `Result::ok()`: keeps the value and drops the error. */
    function ToOption(): (o: Option<T>)
      ensures o.Some? <==> Ok?
      ensures o.Some? ==> o.value == value
    {
      match this
      case Ok(v) => Some(v)
      case Err(_) => None
    }
  }
}
