/** What the other modules share. */
module Wrappers {
  datatype Option<T> = None | Some(value: T)

  /** The number of values of a 64-bit word. */
  const TWO_64: nat := 0x1_0000_0000_0000_0000
}
