/** The usual Some/None datatype; None stands for the "N/A" fields of the display. */
module Wrappers {
  datatype Option<+T> = None | Some(value: T)
}
