/** Python `bytes` values, as sequences of integers in 0..255. */
module Bytes {

  type Byte = b: int | 0 <= b < 256

  /** Whether every byte is a 7-bit ASCII code. */
  predicate IsAscii(bs: seq<Byte>) {
    forall i :: 0 <= i < |bs| ==> bs[i] < 128
  }
}
