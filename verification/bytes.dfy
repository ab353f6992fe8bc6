/** Bytes, addresses and buffers shared by every layer. */
module Bytes {
  type byte = b: int | 0 <= b < 256

  /** A 5-byte nRF24 access address, least significant byte first. */
  type Addr = a: seq<byte> | |a| == 5 witness [0, 0, 0, 0, 0]

  /** An 8-byte link address; all zeros means "none". */
  type Mac = m: seq<byte> | |m| == 8 witness [0, 0, 0, 0, 0, 0, 0, 0]

  datatype Option<T> = None | Some(value: T)

  const NO_MAC: Mac := [0, 0, 0, 0, 0, 0, 0, 0]

  function Min(a: int, b: int): (m: int)
  {
    if a < b then a else b
  }

  function Zeros(n: nat): (z: seq<byte>)
    ensures |z| == n && forall i :: 0 <= i < n ==> z[i] == 0
  {
    seq(n, _ => 0)
  }

  /** buf with data copied over it from offset off (memcpy). */
  function Patch(buf: seq<byte>, off: nat, data: seq<byte>): (r: seq<byte>)
    requires off + |data| <= |buf|
    ensures |r| == |buf|
    ensures r[..off] == buf[..off]
    ensures r[off..off + |data|] == data
    ensures r[off + |data|..] == buf[off + |data|..]
  {
    buf[..off] + data + buf[off + |data|..]
  }
}
