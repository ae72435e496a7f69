/** Bytes, byte strings and the 64-bit arithmetic of the server. */
module Bytes {
  type byte = b: nat | b < 256
  type bytes = seq<byte>

  const MAX_INT64 := 0x7fff_ffff_ffff_ffff

  // Two's complement wrap-around of an int64 result.
  function Wrap64(x: int): (r: int)
    ensures -MAX_INT64 - 1 <= r <= MAX_INT64
    ensures -MAX_INT64 - 1 <= x <= MAX_INT64 ==> r == x
  {
    (x + MAX_INT64 + 1) % (2 * (MAX_INT64 + 1)) - (MAX_INT64 + 1)
  }

  function Flatten(parts: seq<bytes>): bytes {
    if parts == [] then [] else parts[0] + Flatten(parts[1..])
  }
}
