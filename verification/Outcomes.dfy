/** Result shapes shared by the model. */
module Outcomes {
  datatype Option<+T> = None | Some(value: T)

  /** What a call of a Rust function can end in: a value, an error return, or a panic. */
  datatype Outcome<+T> = Ok(value: T) | Err | Panic
}
