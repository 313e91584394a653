/** Small shared datatypes: an optional value and the answer of a call into the
    messaging library, which either returns a value or throws an error. */
module Wrappers {

  datatype Option<+T> = None | Some(value: T)

  /** What an awaited library call produced: a value, or an exception whose
      `message` the HTTP handlers pass back to the caller. */
  datatype Reply<+T> = Returned(value: T) | Threw(message: string)
}
