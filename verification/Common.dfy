/** Shared vocabulary: optional values, bytes and the big-endian integer fields
    of a DoIP header. */
module Common {

  datatype Option<+T> = None | Some(value: T)

  type byte = x: int | 0 <= x < 256

  type Bytes = seq<byte>

  /** A value that fits a two-byte field (a logical address, a payload type, a DID). */
  type uint16 = x: int | 0 <= x < 0x1_0000

  /** A value that fits the four-byte payload-length field. */
  type uint32 = x: int | 0 <= x < 0x1_0000_0000

  function Encode16(n: uint16): (b: Bytes)
    ensures |b| == 2 && Decode16(b) == n
  {
    [n / 256, n % 256]
  }

  function Decode16(b: Bytes): uint16
    requires |b| == 2
  {
    var high: int := b[0];
    high * 256 + b[1]
  }

  function Encode32(n: uint32): (b: Bytes)
    ensures |b| == 4 && Decode32(b) == n
  {
    Encode16(n / 0x1_0000) + Encode16(n % 0x1_0000)
  }

  function Decode32(b: Bytes): uint32
    requires |b| == 4
  {
    var high: int := Decode16(b[..2]);
    high * 0x1_0000 + Decode16(b[2..])
  }
}
