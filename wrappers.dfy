/** The optional value that stands for JavaScript's `null` in the game's return values and state. */
module Wrappers {
  datatype Option<+T> = None | Some(value: T)
}
