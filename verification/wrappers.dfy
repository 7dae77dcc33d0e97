/** The usual optional value (the source's `None`), and byte strings. */
module Wrappers {
  datatype Option<+T> = None | Some(value: T)

  newtype Byte = x: int | 0 <= x < 256

  type Bytes = seq<Byte>
}
