/** Bytes, as the drivers and the debug server move them. */
module Bytes {
  newtype byte = x: int | 0 <= x < 256
}
