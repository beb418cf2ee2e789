/** Bytes, as the source's char buffers hold them. */
module Bytes {
  newtype byte = x: int | 0 <= x < 256

  const STAR: byte := '*' as int as byte
  const NEWLINE: byte := '\n' as int as byte

  function Concat(chunks: seq<seq<byte>>): seq<byte> {
    if chunks == [] then [] else chunks[0] + Concat(chunks[1..])
  }
}
