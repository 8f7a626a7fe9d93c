/** Sequencing and acknowledging of off-chain messages (kdapp-merchant/src/udp_router.rs and
    tcp_router.rs), and the proof that the stream router does what the datagram router does. */
module Routing {
  import opened Wrappers
  import opened Primitives
  import opened LittleEndian
  import opened Tlv

  datatype AckState = AckState(seqNo: U64, ack: seq<Byte>)

  /** Per episode, the last accepted sequence number and the acknowledgement sent for it. */
  type Table = map<U64, AckState>

  /** What is handed to the engine; the clock is not part of this model. */
  datatype Event = Forwarded(daa: U64, payload: seq<Byte>)

  datatype Effect = Effect(table: Table, reply: Option<seq<Byte>>, event: Option<Event>)

  datatype Verdict = Accept | Resend(ack: seq<Byte>) | Ignore

  function Judge(table: Table, t: MsgType, m: TlvMsg): Verdict {
    var known := m.episodeId in table;
    match t
    case New =>
      if !known && m.seqNo == 0 then Accept
      else if known && m.seqNo == table[m.episodeId].seqNo then Resend(table[m.episodeId].ack)
      else Ignore
    case Ack => Ignore
    case AckClose => Ignore
    case _ =>
      if known && m.seqNo == table[m.episodeId].seqNo + 1 then Accept
      else if known && m.seqNo == table[m.episodeId].seqNo then Resend(table[m.episodeId].ack)
      else Ignore
  }

  function AckOf(mac: Mac, m: TlvMsg): TlvMsg {
    Signed(TlvMsg(TLV_VERSION, if m.msgType == ToU8(Close) then ToU8(AckClose) else ToU8(Ack), m.episodeId, m.seqNo,
                  m.stateHash, [], seq(32, _ => 0)), mac)
  }

  function EventOf(m: TlvMsg): Option<Event> {
    if m.msgType == ToU8(Checkpoint) then None else Some(Forwarded(m.seqNo, m.payload))
  }

  /** The message of a datagram or frame that passes decoding and authentication. */
  function Authentic(mac: Mac, bytes: seq<Byte>): Option<TlvMsg> {
    var m := Decoded(bytes);
    if m.Some? && Verifies(m.value, mac) then m else None
  }

  function Receive(mac: Mac, table: Table, bytes: seq<Byte>): Effect {
    match Authentic(mac, bytes)
    case None => Effect(table, None, None)
    case Some(m) =>
      match Judge(table, FromU8(m.msgType).value, m)
      case Ignore => Effect(table, None, None)
      case Resend(ack) => Effect(table, Some(ack), None)
      case Accept =>
        var ack := Encoded(AckOf(mac, m));
        Effect(table[m.episodeId := AckState(m.seqNo, ack)], Some(ack), EventOf(m))
  }

  /** What a router does with received bytes, told from the bytes. */

  /** An authentic message that opens its episode or is the next of it: type 0 opens with number 0 an
      episode not heard of, types 1, 3 and 5 go on with the number after the last. */
  predicate InTurn(table: Table, m: TlvMsg) {
    || (m.msgType == 0 && m.episodeId !in table && m.seqNo == 0)
    || ((m.msgType == 1 || m.msgType == 3 || m.msgType == 5)
        && m.episodeId in table && m.seqNo == table[m.episodeId].seqNo + 1)
  }

  /** One that repeats the last accepted number of its episode. */
  predicate Again(table: Table, m: TlvMsg) {
    && (m.msgType == 0 || m.msgType == 1 || m.msgType == 3 || m.msgType == 5)
    && m.episodeId in table && m.seqNo == table[m.episodeId].seqNo
  }

  /** The acknowledgement: type 4 for a closing message and 2 for any other, same episode, number and
      state hash, no payload, signed. */
  ghost predicate Acknowledgement(mac: Mac, m: TlvMsg, ack: TlvMsg) {
    && ack.version == 1 && ack.msgType == (if m.msgType == 3 then 4 else 2)
    && ack.episodeId == m.episodeId && ack.seqNo == m.seqNo && ack.stateHash == m.stateHash && ack.payload == []
    && Verifies(ack, mac)
  }

  /** A message in turn is accepted: it is acknowledged, the acknowledgement is kept, and everything but
      a checkpoint (type 5) is forwarded under its number as score with its own payload. A repeated one
      gets the kept bytes again. Anything else is met with silence. */
  lemma ReceiveMeans(mac: Mac, table: Table, bytes: seq<Byte>)
    ensures
      var effect := Receive(mac, table, bytes);
      if Decoded(bytes).None? || !Verifies(Decoded(bytes).value, mac) then effect == Effect(table, None, None)
      else
        var m := Decoded(bytes).value;
        if InTurn(table, m) then
          && (exists ack :: Acknowledgement(mac, m, ack) && effect.reply == Some(Encoded(ack)))
          && effect.table == table[m.episodeId := AckState(m.seqNo, effect.reply.value)]
          && effect.event == (if m.msgType == 5 then None else Some(Forwarded(m.seqNo, m.payload)))
        else if Again(table, m) then effect == Effect(table, Some(table[m.episodeId].ack), None)
        else effect == Effect(table, None, None)
  {
    if Decoded(bytes).Some? {
      var m := Decoded(bytes).value;
      TypesByNumber(m.msgType);
      assert Acknowledgement(mac, m, AckOf(mac, m));
    }
  }

  lemma TypesByNumber(v: Byte)
    requires FromU8(v).Some?
    ensures
      match FromU8(v).value
      case New => v == 0
      case Cmd => v == 1
      case Ack => v == 2
      case Close => v == 3
      case AckClose => v == 4
      case Checkpoint => v == 5
  {
  }

  /** What a router has done: its table, the replies it sent and the events it forwarded. */
  datatype Trace = Trace(table: Table, replies: seq<seq<Byte>>, events: seq<Event>)

  function Note<T>(log: seq<T>, entry: Option<T>): seq<T> {
    if entry.Some? then log + [entry.value] else log
  }

  function ReceiveAll(mac: Mac, start: Trace, inputs: seq<seq<Byte>>): Trace
    decreases |inputs|
  {
    if inputs == [] then start
    else
      var before := ReceiveAll(mac, start, inputs[..|inputs| - 1]);
      var effect := Receive(mac, before.table, inputs[|inputs| - 1]);
      Trace(effect.table, Note(before.replies, effect.reply), Note(before.events, effect.event))
  }

  lemma ReceiveOneMore(mac: Mac, start: Trace, inputs: seq<seq<Byte>>, input: seq<Byte>)
    ensures
      var before := ReceiveAll(mac, start, inputs);
      var effect := Receive(mac, before.table, input);
      ReceiveAll(mac, start, inputs + [input]) ==
      Trace(effect.table, Note(before.replies, effect.reply), Note(before.events, effect.event))
  {
    assert (inputs + [input])[..|inputs|] == inputs;
  }

  /** The receive buffer of the datagram router. */
  const UDP_BUFFER: nat := 0x1_0000

  function Truncate(bytes: seq<Byte>, size: nat): seq<Byte> {
    if |bytes| <= size then bytes else bytes[..size]
  }

  function Truncated(inputs: seq<seq<Byte>>): (cut: seq<seq<Byte>>)
    ensures |cut| == |inputs|
    ensures forall i :: 0 <= i < |inputs| ==> cut[i] == Truncate(inputs[i], UDP_BUFFER)
  {
    seq(|inputs|, i requires 0 <= i < |inputs| => Truncate(inputs[i], UDP_BUFFER))
  }

  /** The frames a stream is cut into; a frame that is not complete ends the reading. */
  function Frames(stream: seq<Byte>): seq<seq<Byte>>
    decreases |stream|
  {
    if |stream| < HEADER then []
    else
      var size := OVERHEAD + PayloadLength(stream);
      if |stream| < size then [] else [stream[..size]] + Frames(stream[size..])
  }

  function Encodings(msgs: seq<TlvMsg>): (inputs: seq<seq<Byte>>)
    ensures |inputs| == |msgs|
    ensures forall i :: 0 <= i < |msgs| ==> inputs[i] == Encoded(msgs[i])
  {
    seq(|msgs|, i requires 0 <= i < |msgs| => Encoded(msgs[i]))
  }

  function Stream(inputs: seq<seq<Byte>>): seq<Byte> {
    if inputs == [] then [] else inputs[0] + Stream(inputs[1..])
  }

  /** A complete message at the head of a stream is cut off whole. */
  lemma FrameHead(m: TlvMsg, rest: seq<Byte>)
    requires |m.payload| < 0x1_0000
    ensures Frames(Encoded(m) + rest) == [Encoded(m)] + Frames(rest)
  {
    Layout(m, rest);
    var stream := Encoded(m) + rest;
    assert stream[..OVERHEAD + |m.payload|] == Encoded(m);
    assert stream[OVERHEAD + |m.payload|..] == rest;
  }

  lemma {:induction false} FramesOfEncodings(msgs: seq<TlvMsg>, tail: seq<Byte>)
    requires forall m :: m in msgs ==> |m.payload| < 0x1_0000
    requires Frames(tail) == []
    ensures Frames(Stream(Encodings(msgs)) + tail) == Encodings(msgs)
    decreases |msgs|
  {
    if msgs == [] {
      assert Stream(Encodings(msgs)) + tail == tail;
    } else {
      var rest := Stream(Encodings(msgs[1..]));
      assert Encodings(msgs)[1..] == Encodings(msgs[1..]);
      assert Stream(Encodings(msgs)) + tail == Encoded(msgs[0]) + (rest + tail);
      FrameHead(msgs[0], rest + tail);
      FramesOfEncodings(msgs[1..], tail);
      assert Encodings(msgs) == [Encoded(msgs[0])] + Encodings(msgs[1..]);
    }
  }

  /** A message cut short is no frame. */
  lemma CutShort(m: TlvMsg, n: nat)
    requires |m.payload| < 0x1_0000 && n < |Encoded(m)|
    ensures Frames(Encoded(m)[..n]) == []
  {
    Layout(m, []);
    assert Encoded(m) + [] == Encoded(m);
    if n >= HEADER {
      assert Encoded(m)[..n][50..52] == Encoded(m)[50..52];
    }
  }

  /** Reading a stream of messages, the last possibly cut short, has the same effect as receiving
      them one datagram at a time, if each fits the datagram buffer. */
  lemma TcpRefinesUdp(mac: Mac, start: Trace, msgs: seq<TlvMsg>, last: TlvMsg, cut: nat)
    requires forall m :: m in msgs ==> OVERHEAD + |m.payload| <= UDP_BUFFER
    requires |last.payload| < 0x1_0000 && cut < |Encoded(last)|
    ensures
      ReceiveAll(mac, start, Frames(Stream(Encodings(msgs)) + Encoded(last)[..cut])) ==
      ReceiveAll(mac, start, Truncated(Encodings(msgs)))
  {
    CutShort(last, cut);
    FramesOfEncodings(msgs, Encoded(last)[..cut]);
    forall i | 0 <= i < |msgs| ensures Truncate(Encoded(msgs[i]), UDP_BUFFER) == Encoded(msgs[i]) {
      Layout(msgs[i], []);
      assert msgs[i] in msgs && Encoded(msgs[i]) + [] == Encoded(msgs[i]);
    }
    assert Truncated(Encodings(msgs)) == Encodings(msgs);
  }

  /** A message that does not fit is lost as a datagram, whatever it says. So on one message the two
      routers agree exactly when it fits, or would be ignored anyway: for its version or type, its tag,
      or its place in the sequence. */
  lemma OneMessageAgreesIff(mac: Mac, table: Table, m: TlvMsg)
    requires |m.payload| < 0x1_0000
    ensures
      Receive(mac, table, Encoded(m)) == Receive(mac, table, Truncate(Encoded(m), UDP_BUFFER)) <==>
      || 84 + |m.payload| <= 65536
      || !Sendable(m) || !Verifies(m, mac) || Judge(table, FromU8(m.msgType).value, m) == Ignore
  {
    Layout(m, []);
    assert Encoded(m) + [] == Encoded(m);
    TlvRoundTrip(m);
    ReceivedIff(mac, table, m);
    if OVERHEAD + |m.payload| > UDP_BUFFER {
      var cut := Encoded(m)[..UDP_BUFFER];
      assert cut[50..52] == Encoded(m)[50..52];
      assert Decoded(cut) == None;
    }
  }

  lemma ReceivedIff(mac: Mac, table: Table, m: TlvMsg)
    requires |m.payload| < 0x1_0000
    ensures Receive(mac, table, Encoded(m)) == Effect(table, None, None) <==>
            !Sendable(m) || !Verifies(m, mac) || Judge(table, FromU8(m.msgType).value, m) == Ignore
  {
    Layout(m, []);
    assert Encoded(m) + [] == Encoded(m);
    TlvRoundTrip(m);
  }

  /** A message that was answered, received again, changes nothing and gets the same bytes back. */
  lemma RetransmissionIsIdempotent(mac: Mac, table: Table, bytes: seq<Byte>)
    requires Receive(mac, table, bytes).reply.Some?
    ensures
      var once := Receive(mac, table, bytes);
      Receive(mac, once.table, bytes) == Effect(once.table, once.reply, None)
  {
  }
}
