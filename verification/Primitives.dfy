/** Bytes, 32-byte hashes and 33-byte compressed public keys. */
module Primitives {
  type Byte = b: int | 0 <= b < 256

  type Bytes32 = s: seq<Byte> | |s| == 32 witness seq(32, _ => 0)

  type Bytes33 = s: seq<Byte> | |s| == 33 witness seq(33, _ => 0)

  datatype Hash = Hash(bytes: Bytes32)

  /** A key is identified with its compressed serialisation. */
  datatype PubKey = PubKey(serialized: Bytes33)
}
