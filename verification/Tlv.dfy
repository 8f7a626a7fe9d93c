/** The off-chain message format (kdapp-merchant/src/tlv.rs). */
module Tlv {
  import opened Wrappers
  import opened Primitives
  import opened LittleEndian

  const TLV_VERSION: Byte := 1

  datatype MsgType = New | Cmd | Ack | Close | AckClose | Checkpoint

  function ToU8(t: MsgType): Byte {
    match t
    case New => 0
    case Cmd => 1
    case Ack => 2
    case Close => 3
    case AckClose => 4
    case Checkpoint => 5
  }

  function FromU8(v: Byte): (t: Option<MsgType>)
    ensures t.Some? <==> v <= 5
    ensures t.Some? ==> ToU8(t.value) == v
  {
    match v
    case 0 => Some(New)
    case 1 => Some(Cmd)
    case 2 => Some(Ack)
    case 3 => Some(Close)
    case 4 => Some(AckClose)
    case 5 => Some(Checkpoint)
    case _ => None
  }

  datatype TlvMsg = TlvMsg(
    version: Byte, msgType: Byte, episodeId: U64, seqNo: U64, stateHash: Bytes32, payload: seq<Byte>, auth: Bytes32)

  /** The keyed hash, with the shared key already applied. */
  type Mac = seq<Byte> -> Bytes32

  const HEADER: nat := 52
  const OVERHEAD: nat := 84 // header and authentication tag

  function Header(m: TlvMsg): (bytes: seq<Byte>)
    ensures |bytes| == HEADER
  {
    [m.version, m.msgType] + ToLE(m.episodeId, 8) + ToLE(m.seqNo, 8) + m.stateHash + ToLE(|m.payload| % 0x1_0000, 2)
  }

  /** The length field keeps 16 bits of the payload length; the payload is written whole. */
  function BytesForSign(m: TlvMsg): seq<Byte> {
    Header(m) + m.payload
  }

  function Encoded(m: TlvMsg): seq<Byte> {
    BytesForSign(m) + m.auth
  }

  function Signed(m: TlvMsg, mac: Mac): TlvMsg {
    m.(auth := mac(BytesForSign(m)))
  }

  predicate Verifies(m: TlvMsg, mac: Mac) {
    m.auth == mac(BytesForSign(m))
  }

  function NumberAt(bytes: seq<Byte>, at: nat, width: nat): (n: nat)
    requires at + width <= |bytes|
    ensures n < Pow256(width)
  {
    LEBounded(bytes[at..at + width]);
    FromLE(bytes[at..at + width])
  }

  function PayloadLength(bytes: seq<Byte>): U16
    requires |bytes| >= HEADER
  {
    Ranges();
    NumberAt(bytes, 50, 2)
  }

  function Decoded(bytes: seq<Byte>): Option<TlvMsg> {
    if |bytes| < OVERHEAD || bytes[0] != TLV_VERSION || FromU8(bytes[1]).None? then None
    else
      var n := PayloadLength(bytes);
      if |bytes| < OVERHEAD + n then None
      else
        Ranges();
        Some(TlvMsg(bytes[0], bytes[1], NumberAt(bytes, 2, 8), NumberAt(bytes, 10, 8), bytes[18..50],
                    bytes[HEADER..HEADER + n], bytes[HEADER + n..OVERHEAD + n]))
  }

  lemma HeaderLayout(m: TlvMsg)
    ensures
      var bytes := Header(m);
      && bytes[0] == m.version && bytes[1] == m.msgType
      && NumberAt(bytes, 2, 8) == m.episodeId && NumberAt(bytes, 10, 8) == m.seqNo
      && bytes[18..50] == m.stateHash && PayloadLength(bytes) == |m.payload| % 0x1_0000
  {
    Ranges();
    LERoundTrip(m.episodeId, 8);
    LERoundTrip(m.seqNo, 8);
    LERoundTrip(|m.payload| % 0x1_0000, 2);
    FieldsOf([m.version, m.msgType], ToLE(m.episodeId, 8), ToLE(m.seqNo, 8), m.stateHash,
             ToLE(|m.payload| % 0x1_0000, 2));
  }

  /** The fields of a header, whatever they hold. */
  lemma FieldsOf(a: seq<Byte>, b: seq<Byte>, c: seq<Byte>, d: seq<Byte>, e: seq<Byte>)
    requires |a| == 2 && |b| == 8 && |c| == 8 && |d| == 32 && |e| == 2
    ensures
      var bytes := a + b + c + d + e;
      bytes[..2] == a && bytes[2..10] == b && bytes[10..18] == c && bytes[18..50] == d && bytes[50..52] == e
  {
  }

  lemma SliceOfPrefix(whole: seq<Byte>, prefix: seq<Byte>, i: nat, j: nat)
    requires i <= j <= |prefix| && prefix <= whole
    ensures whole[i..j] == prefix[i..j]
  {
  }

  /** Where each field of an encoding lies, whatever follows it. */
  lemma Layout(m: TlvMsg, rest: seq<Byte>)
    ensures
      var bytes := Encoded(m) + rest;
      && |bytes| == OVERHEAD + |m.payload| + |rest|
      && bytes[0] == m.version && bytes[1] == m.msgType
      && NumberAt(bytes, 2, 8) == m.episodeId && NumberAt(bytes, 10, 8) == m.seqNo
      && bytes[18..50] == m.stateHash && PayloadLength(bytes) == |m.payload| % 0x1_0000
      && bytes[HEADER..] == m.payload + m.auth + rest
  {
    var bytes := Encoded(m) + rest;
    HeaderLayout(m);
    SliceOfPrefix(bytes, Header(m), 2, 10);
    SliceOfPrefix(bytes, Header(m), 10, 18);
    SliceOfPrefix(bytes, Header(m), 18, 50);
    SliceOfPrefix(bytes, Header(m), 50, 52);
  }

  /** Messages the decoder can give back. */
  predicate Sendable(m: TlvMsg) {
    m.version == TLV_VERSION && m.msgType <= 5 && |m.payload| < 0x1_0000
  }

  /** An encoding decodes to its message exactly for the current version, a known type, and a
      payload whose length fits the 16-bit field. */
  lemma TlvRoundTrip(m: TlvMsg)
    ensures Decoded(Encoded(m)) == Some(m) <==> Sendable(m)
  {
    Layout(m, []);
    assert Encoded(m) + [] == Encoded(m);
    if Sendable(m) {
      var bytes := Encoded(m);
      var n := |m.payload|;
      assert bytes[HEADER..HEADER + n] == bytes[HEADER..][..n] == m.payload;
      assert bytes[HEADER + n..OVERHEAD + n] == bytes[HEADER..][n..n + 32] == m.auth;
    }
  }

  /** The bytes of an encoding, one field after the other: version, type, eight bytes of episode id and
      eight of number, lowest first, the state hash, the low 16 bits of the payload's length, the payload
      and the tag. */
  lemma EncodedBytes(m: TlvMsg)
    ensures
      var bytes, n := Encoded(m), |m.payload|;
      && |bytes| == 84 + n && bytes[0] == m.version && bytes[1] == m.msgType
      && FourAt(bytes, 2) + 0x1_0000_0000 * FourAt(bytes, 6) == m.episodeId
      && FourAt(bytes, 10) + 0x1_0000_0000 * FourAt(bytes, 14) == m.seqNo
      && bytes[18..50] == m.stateHash && Four(bytes[50], bytes[51], 0, 0) == n % 65536
      && bytes[52..52 + n] == m.payload && bytes[52 + n..] == m.auth
  {
    var bytes := Encoded(m);
    Layout(m, []);
    assert bytes + [] == bytes;
    ReadEight(bytes[2..10]);
    ReadEight(bytes[10..18]);
    ReadTwo(bytes[50..52]);
    assert bytes[52..] == m.payload + m.auth;
  }

  /** The tag is over all bytes before it. */
  lemma TagCovers(m: TlvMsg, mac: Mac)
    ensures
      var covered := Encoded(m)[..52 + |m.payload|];
      && (Verifies(m, mac) <==> m.auth == mac(covered))
      && Signed(m, mac) == m.(auth := mac(covered)) && Encoded(Signed(m, mac))[..52 + |m.payload|] == covered
  {
    assert Encoded(m)[..52 + |m.payload|] == BytesForSign(m);
  }

  /** What decodes is what was encoded, with anything after it: no other bytes give a message. */
  lemma DecodedIff(bytes: seq<Byte>, m: TlvMsg)
    ensures Decoded(bytes) == Some(m) <==>
            m.version == 1 && m.msgType <= 5 && |m.payload| < 65536 && Encoded(m) <= bytes
  {
    if Decoded(bytes) == Some(m) {
      Reencoded(bytes);
    }
    if m.version == 1 && m.msgType <= 5 && |m.payload| < 65536 && Encoded(m) <= bytes {
      var rest := bytes[|Encoded(m)|..];
      assert bytes == Encoded(m) + rest;
      DecodedThen(m, rest);
    }
  }

  lemma DecodedThen(m: TlvMsg, rest: seq<Byte>)
    requires Sendable(m)
    ensures Decoded(Encoded(m) + rest) == Some(m)
  {
    var bytes, n := Encoded(m) + rest, |m.payload|;
    Layout(m, rest);
    assert bytes[HEADER..HEADER + n] == bytes[HEADER..][..n] == m.payload;
    assert bytes[HEADER + n..OVERHEAD + n] == bytes[HEADER..][n..n + 32] == m.auth;
  }

  lemma Reencoded(bytes: seq<Byte>)
    requires Decoded(bytes).Some?
    ensures
      var m := Decoded(bytes).value;
      Sendable(m) && |bytes| >= |Encoded(m)| && bytes[..|Encoded(m)|] == Encoded(m)
  {
    var m := Decoded(bytes).value;
    var n: nat := PayloadLength(bytes);
    HeaderAgain(bytes, m);
    ThreeParts(bytes, 52, 52 + n, 84 + n);
  }

  lemma ThreeParts(bytes: seq<Byte>, i: nat, j: nat, k: nat)
    requires i <= j <= k <= |bytes|
    ensures bytes[..i] + bytes[i..j] + bytes[j..k] == bytes[..k]
  {
  }

  lemma HeaderAgain(bytes: seq<Byte>, m: TlvMsg)
    requires |bytes| >= HEADER && m.version == bytes[0] && m.msgType == bytes[1]
    requires m.episodeId == FromLE(bytes[2..10]) && m.seqNo == FromLE(bytes[10..18])
    requires m.stateHash == bytes[18..50] && |m.payload| % 0x1_0000 == FromLE(bytes[50..52])
    ensures Header(m) == bytes[..52]
  {
    LEInverse(bytes[2..10]);
    LEInverse(bytes[10..18]);
    LEInverse(bytes[50..52]);
    ThreeParts(bytes, 2, 10, 18);
    ThreeParts(bytes, 18, 50, 52);
    assert bytes[..2] == [m.version, m.msgType];
  }

  lemma TypeNumbers()
    ensures ToU8(New) == 0 && ToU8(Cmd) == 1 && ToU8(Ack) == 2
    ensures ToU8(Close) == 3 && ToU8(AckClose) == 4 && ToU8(Checkpoint) == 5
  {
  }

  /** The imperative encoder and decoder. */

  method Encode(m: TlvMsg) returns (v: seq<Byte>)
    ensures v == Encoded(m)
  {
    v := [m.version];
    v := v + [m.msgType];
    v := v + ToLE(m.episodeId, 8);
    v := v + ToLE(m.seqNo, 8);
    v := v + m.stateHash;
    v := v + ToLE(|m.payload| % 0x1_0000, 2);
    assert v == Header(m);
    v := v + m.payload;
    v := v + m.auth;
  }

  method Decode(bytes: seq<Byte>) returns (m: Option<TlvMsg>)
    ensures m == Decoded(bytes)
  {
    if |bytes| < 1 + 1 + 8 + 8 + 32 + 2 + 32 {
      return None;
    }
    var version, msgType := bytes[0], bytes[1];
    if version != TLV_VERSION {
      return None;
    }
    if FromU8(msgType).None? {
      return None;
    }
    Ranges();
    var episodeId := NumberAt(bytes, 2, 8);
    var seqNo := NumberAt(bytes, 10, 8);
    var payloadLength := PayloadLength(bytes);
    if |bytes| < HEADER + payloadLength + 32 {
      return None;
    }
    var payloadEnd := HEADER + payloadLength;
    return Some(TlvMsg(version, msgType, episodeId, seqNo, bytes[18..50], bytes[HEADER..payloadEnd],
                       bytes[payloadEnd..payloadEnd + 32]));
  }
}
