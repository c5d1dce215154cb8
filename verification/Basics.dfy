/** What all modules share. */
module Basics {
  const U32: nat := 0x1_0000_0000
  const U64: nat := 0x1_0000_0000_0000_0000

  datatype Option<T> = None | Some(value: T)
}
