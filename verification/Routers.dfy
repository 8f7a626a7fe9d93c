/** The two routers and the sender as the source runs them. */
module Routers {
  import opened Wrappers
  import opened Primitives
  import opened Sequences
  import opened Tlv
  import opened Routing

  class Router {
    const mac: Mac
    var lastSeq: Table

    constructor (mac: Mac)
      ensures this.mac == mac && lastSeq == map[]
    {
      this.mac := mac;
      lastSeq := map[];
    }

    /** The body of either receive loop, on the bytes of one message. */
    method Handle(bytes: seq<Byte>) returns (reply: Option<seq<Byte>>, event: Option<Event>)
      modifies this
      ensures Effect(lastSeq, reply, event) == Receive(mac, old(lastSeq), bytes)
    {
      var decoded := Decode(bytes);
      if decoded.None? {
        return None, None;
      }
      var msg := decoded.value;
      if msg.version != TLV_VERSION {
        return None, None;
      }
      var t := FromU8(msg.msgType);
      if t.None? {
        return None, None;
      }
      if !Verifies(msg, mac) {
        return None, None;
      }
      var accepted := false;
      match t.value {
        case New =>
          if msg.episodeId !in lastSeq {
            accepted := msg.seqNo == 0;
          } else if msg.seqNo == lastSeq[msg.episodeId].seqNo {
            return Some(lastSeq[msg.episodeId].ack), None;
          }
        case Ack =>
        case AckClose =>
        case _ =>
          if msg.episodeId in lastSeq {
            if msg.seqNo == lastSeq[msg.episodeId].seqNo + 1 {
              accepted := true;
            } else if msg.seqNo == lastSeq[msg.episodeId].seqNo {
              return Some(lastSeq[msg.episodeId].ack), None;
            }
          }
      }
      if !accepted {
        return None, None;
      }
      event := None;
      if !t.value.Checkpoint? {
        event := Some(Forwarded(msg.seqNo, msg.payload));
      }
      var ackType: Byte := if t.value.Close? then ToU8(AckClose) else ToU8(Ack);
      var ack := TlvMsg(TLV_VERSION, ackType, msg.episodeId, msg.seqNo, msg.stateHash, [], seq(32, _ => 0));
      ack := Signed(ack, mac);
      var ackBytes := Encode(ack);
      reply := Some(ackBytes);
      lastSeq := lastSeq[msg.episodeId := AckState(msg.seqNo, ackBytes)];
    }

    /** The datagram loop, over the datagrams its socket delivers. */
    method RunUdp(datagrams: seq<seq<Byte>>) returns (replies: seq<seq<Byte>>, events: seq<Event>)
      modifies this
      ensures Trace(lastSeq, replies, events) == ReceiveAll(mac, Trace(old(lastSeq), [], []), Truncated(datagrams))
    {
      replies, events := [], [];
      ghost var start := Trace(lastSeq, [], []);
      ghost var inputs := Truncated(datagrams);
      var i := 0;
      while i < |datagrams|
        invariant 0 <= i <= |datagrams|
        invariant Trace(lastSeq, replies, events) == ReceiveAll(mac, start, inputs[..i])
      {
        assert inputs[..i + 1] == inputs[..i] + [inputs[i]];
        ReceiveOneMore(mac, start, inputs[..i], inputs[i]);
        var buf := if |datagrams[i]| <= UDP_BUFFER then datagrams[i] else datagrams[i][..UDP_BUFFER];
        var reply, event := Handle(buf);
        replies, events := Note(replies, reply), Note(events, event);
        i := i + 1;
      }
      assert inputs[..i] == inputs;
    }

    /** The frame-reading loop over one connection's bytes. */
    method HandleStream(stream: seq<Byte>) returns (replies: seq<seq<Byte>>, events: seq<Event>)
      modifies this
      ensures Trace(lastSeq, replies, events) == ReceiveAll(mac, Trace(old(lastSeq), [], []), Frames(stream))
    {
      replies, events := [], [];
      ghost var start := Trace(lastSeq, [], []);
      ghost var done: seq<seq<Byte>> := [];
      var rest := stream;
      while true
        invariant done + Frames(rest) == Frames(stream)
        invariant Trace(lastSeq, replies, events) == ReceiveAll(mac, start, done)
        decreases |rest|
      {
        if |rest| < HEADER {
          break;
        }
        LengthInHeader(rest);
        var payloadLength := PayloadLength(rest[..HEADER]);
        var size := OVERHEAD + payloadLength;
        if |rest| < size {
          break;
        }
        var frame := rest[..size];
        rest := rest[size..];
        Regroup(done, [frame], Frames(rest));
        ReceiveOneMore(mac, start, done, frame);
        done := done + [frame];
        var reply, event := Handle(frame);
        replies, events := Note(replies, reply), Note(events, event);
      }
      assert done + [] == done;
    }
  }

  /** The length read from a header alone is that of the frame it starts. */
  lemma LengthInHeader(rest: seq<Byte>)
    requires |rest| >= HEADER
    ensures PayloadLength(rest[..HEADER]) == PayloadLength(rest)
  {
    SliceOfPrefix(rest, rest[..HEADER], 50, 52);
  }

  const ATTEMPTS: nat := 3
  const SENDER_BUFFER: nat := 1024

  /** Whether received bytes acknowledge the message. */
  predicate Acknowledges(mac: Mac, m: TlvMsg, expectClose: bool, bytes: seq<Byte>) {
    match Decoded(Truncate(bytes, SENDER_BUFFER))
    case None => false
    case Some(ack) =>
      && ack.msgType == (if expectClose then ToU8(AckClose) else ToU8(Ack))
      && ack.episodeId == m.episodeId && ack.seqNo == m.seqNo && Verifies(ack, mac)
  }

  /** Of what is received, the first 1024 bytes are read. They acknowledge the message if they begin with
      the encoding of an authentic message of type 4 where a close is expected and 2 otherwise, for its
      episode and number. */
  lemma AcknowledgesMeans(mac: Mac, m: TlvMsg, expectClose: bool, bytes: seq<Byte>)
    ensures
      var read := if |bytes| <= 1024 then bytes else bytes[..1024];
      Acknowledges(mac, m, expectClose, bytes) <==>
      exists ack: TlvMsg ::
        && ack.version == 1 && ack.msgType == (if expectClose then 4 else 2)
        && ack.episodeId == m.episodeId && ack.seqNo == m.seqNo && |ack.payload| < 65536
        && Verifies(ack, mac) && Encoded(ack) <= read
  {
    var read := Truncate(bytes, SENDER_BUFFER);
    if Decoded(read).Some? {
      DecodedIff(read, Decoded(read).value);
    }
    forall ack: TlvMsg | ack.version == 1 && ack.msgType == (if expectClose then 4 else 2) && |ack.payload| < 65536
                 && Encoded(ack) <= read
      ensures Decoded(read) == Some(ack)
    {
      DecodedIff(read, ack);
    }
  }

  function Pow2(n: nat): nat {
    if n == 0 then 1 else 2 * Pow2(n - 1)
  }

  method ReadAck(mac: Mac, m: TlvMsg, expectClose: bool, received: seq<Byte>) returns (ok: bool)
    ensures ok <==> Acknowledges(mac, m, expectClose, received)
  {
    var expected: Byte := if expectClose then ToU8(AckClose) else ToU8(Ack);
    var buf := if |received| <= SENDER_BUFFER then received else received[..SENDER_BUFFER];
    var ack := Decode(buf);
    return ack.Some? && ack.value.msgType == expected && ack.value.episodeId == m.episodeId
           && ack.value.seqNo == m.seqNo && Verifies(ack.value, mac);
  }

  /** Whether an attempt's receive got an acknowledgement. */
  predicate Acked(mac: Mac, m: TlvMsg, expectClose: bool, received: Option<seq<Byte>>) {
    received.Some? && Acknowledges(mac, m, expectClose, received.value)
  }

  /** The retry loop. `received` holds what each attempt's receive returned, None for a timeout.
      Every attempt sends the same signed bytes and waits twice as long as the one before; the
      loop ends at the first acknowledgement or after three attempts. */
  method SendWithRetry(mac: Mac, msg: TlvMsg, expectClose: bool, received: seq<Option<seq<Byte>>>)
    returns (sent: seq<seq<Byte>>, timeouts: seq<nat>, acked: bool)
    requires |received| == ATTEMPTS
    ensures |sent| == |timeouts| && 1 <= |sent| <= 3
    ensures forall i :: 0 <= i < |sent| ==> sent[i] == Encoded(Signed(msg, mac))
    ensures forall i :: 0 <= i < |sent| ==> timeouts[i] == 300 * Pow2(i)
    ensures forall i :: 0 <= i < |sent| - 1 ==> !Acked(mac, msg, expectClose, received[i])
    ensures acked <==> Acked(mac, msg, expectClose, received[|sent| - 1])
    ensures !acked ==> |sent| == 3
  {
    var bytes := Encode(Signed(msg, mac));
    var timeoutMs := 300;
    sent, timeouts, acked := [], [], false;
    for attempt := 0 to ATTEMPTS
      invariant |sent| == |timeouts| == attempt && !acked
      invariant timeoutMs == 300 * Pow2(attempt)
      invariant forall i :: 0 <= i < attempt ==> sent[i] == bytes
      invariant forall i :: 0 <= i < attempt ==> timeouts[i] == 300 * Pow2(i)
      invariant forall i :: 0 <= i < attempt ==> !Acked(mac, msg, expectClose, received[i])
    {
      sent := sent + [bytes];
      timeouts := timeouts + [timeoutMs];
      if received[attempt].Some? {
        acked := ReadAck(mac, msg, expectClose, received[attempt].value);
        if acked {
          return;
        }
      }
      timeoutMs := 2 * timeoutMs;
    }
  }
}
