/** Option and Result values for the error paths of the timetable tools. */
module Wrappers {

  datatype Option<+T> = None | Some(value: T)

  /** `Err` carries what the program reports when it gives up (for example the raw model text). */
  datatype Result<+T, +E> = Ok(value: T) | Err(error: E)
}
