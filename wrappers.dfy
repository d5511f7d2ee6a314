/** Outcomes of calls the model does not look inside: a value, or the message of the
    exception the call raised. */
module Wrappers {

  datatype Option<+T> = None | Some(value: T)

  datatype Outcome<+T> = Success(value: T) | Failure(message: string)
}
