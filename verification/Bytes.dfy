// Octets, as file contents and wire data are made of.
module Bytes {
  newtype Byte = x: int | 0 <= x < 256

  type Octets = seq<Byte>
}
