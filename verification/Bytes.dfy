/** Bytes and the strings made of them: a Go string is any sequence of bytes. */
module Bytes {
  type Byte = b: int | 0 <= b < 256

  type ByteString = seq<Byte>
}
