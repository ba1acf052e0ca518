/** Types shared by every module. */
module Prelude {

  datatype Option<+T> = None | Some(value: T)

  /** Go's byte. */
  type byte = n: int | 0 <= n < 256

  type bytes = seq<byte>

  /** Go's uint32. */
  type uint32 = n: int | 0 <= n < 0x1_0000_0000
}
