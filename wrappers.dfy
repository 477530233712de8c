/** A nullable reference, as the engine uses `nullptr` for "no block" and "no joystick". */
module Wrappers {
  datatype Option<T> = None | Some(value: T)
}
