/** Option and Result, shared by every module of the model. */
module Outcomes {

  datatype Option<+T> = None | Some(value: T)

  /** A source exception is an Err that carries which check raised it. */
  datatype Result<+T, +E> = Ok(value: T) | Err(error: E)
}
