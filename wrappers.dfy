/** Option and Result, for the error paths of the account store and of the serializers. */
module Wrappers {

  datatype Option<+T> = None | Some(value: T)

  datatype Result<+T, +E> = Ok(value: T) | Err(error: E)

  /** Python truthiness of an optional string: None and "" are both false. */
  predicate Present(s: Option<string>) {
    s.Some? && s.value != ""
  }
}
