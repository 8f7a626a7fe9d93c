/** Exactly-once, in-order delivery over a network that drops, duplicates and reorders. */
module Delivery {
  import opened Wrappers
  import opened Primitives
  import opened LittleEndian
  import opened Tlv
  import opened Routing
  import opened Routers

  /** What each episode's one sender has to say: the n-th message carries sequence number n. */
  type Script = map<U64, seq<TlvMsg>>

  ghost predicate ScriptOk(mac: Mac, script: Script) {
    forall ep: U64, n: nat :: ep in script && n < |script[ep]| ==>
      var m := script[ep][n];
      m.episodeId == ep && m.seqNo == n && Sendable(m) && Verifies(m, mac)
  }

  /** No sender sends what looks like an acknowledgement. */
  ghost predicate SpeaksNoAcks(script: Script) {
    forall ep: U64, n: nat :: ep in script && n < |script[ep]| ==>
      script[ep][n].msgType != ToU8(Ack) && script[ep][n].msgType != ToU8(AckClose)
  }

  /** The router with everything it accepted and forwarded, what is on the wire in either
      direction, and which messages their senders saw acknowledged. */
  datatype Net = Net(
    table: Table, accepted: seq<TlvMsg>, events: seq<Event>,
    datagrams: set<seq<Byte>>, acks: set<seq<Byte>>, confirmed: set<(U64, nat)>)

  const START: Net := Net(map[], [], [], {}, {}, {})

  /** A sender may (re)send any of its messages at any time. The network may deliver to either side
      whatever is on the wire in either direction, with anything appended, in any order and any number
      of times, or never, and anything it makes up or corrupts that carries no authentic tag. */
  datatype Action =
    | Send(ep: U64, n: nat)
    | Deliver(bytes: seq<Byte>)
    | ReadReply(ep: U64, n: nat, expectClose: bool, bytes: seq<Byte>)

  /** The bytes, as far as they are read, carry a message that was sent in either direction, or none. */
  ghost predicate OnWire(mac: Mac, net: Net, bytes: seq<Byte>) {
    Authentic(mac, bytes).Some? ==> Encoded(Authentic(mac, bytes).value) in net.datagrams + net.acks
  }

  ghost predicate Enabled(mac: Mac, script: Script, net: Net, act: Action) {
    match act
    case Send(ep, n) => ep in script && n < |script[ep]|
    case Deliver(bytes) => OnWire(mac, net, Truncate(bytes, UDP_BUFFER))
    case ReadReply(ep, n, _, bytes) =>
      ep in script && n < |script[ep]| && OnWire(mac, net, Truncate(bytes, SENDER_BUFFER))
  }

  ghost function Act(mac: Mac, script: Script, net: Net, act: Action): Net
    requires Enabled(mac, script, net, act)
  {
    match act
    case Send(ep, n) => net.(datagrams := net.datagrams + {Encoded(script[ep][n])})
    case Deliver(bytes) =>
      var input := Truncate(bytes, UDP_BUFFER);
      var effect := Receive(mac, net.table, input);
      net.(table := effect.table,
           accepted := if effect.table != net.table then net.accepted + [Authentic(mac, input).value] else net.accepted,
           events := Note(net.events, effect.event),
           acks := if effect.reply.Some? then net.acks + {effect.reply.value} else net.acks)
    case ReadReply(ep, n, expectClose, bytes) =>
      if Acknowledges(mac, script[ep][n], expectClose, bytes) then net.(confirmed := net.confirmed + {(ep, n)}) else net
  }

  /** The messages of one episode, and the events a list of messages gives rise to. */

  function OfEpisode(msgs: seq<TlvMsg>, ep: U64): seq<TlvMsg> {
    if msgs == [] then []
    else
      var last := |msgs| - 1;
      if msgs[last].episodeId == ep then OfEpisode(msgs[..last], ep) + [msgs[last]] else OfEpisode(msgs[..last], ep)
  }

  function EventsOf(msgs: seq<TlvMsg>): seq<Event> {
    if msgs == [] then [] else Note(EventsOf(msgs[..|msgs| - 1]), EventOf(msgs[|msgs| - 1]))
  }

  /** The forwarded log, told from the accepted messages: those of type 0, 1 or 3, in order of
      acceptance, each as its number and its own payload. `at` says where each was accepted. */
  ghost predicate Forwards(accepted: seq<TlvMsg>, events: seq<Event>, at: seq<nat>) {
    && |at| == |events|
    && (forall i, j :: 0 <= i < j < |at| ==> at[i] < at[j])
    && (forall i :: 0 <= i < |at| ==>
          at[i] < |accepted| && events[i] == Forwarded(accepted[at[i]].seqNo, accepted[at[i]].payload))
    && (forall n: nat :: n < |accepted| ==>
          (n in at <==> accepted[n].msgType == 0 || accepted[n].msgType == 1 || accepted[n].msgType == 3))
  }

  /** Messages of the four types that routers accept: opening, command, closing and checkpoint. */
  predicate Acceptable(m: TlvMsg) {
    m.msgType == 0 || m.msgType == 1 || m.msgType == 3 || m.msgType == 5
  }

  lemma {:induction false} EventsForward(accepted: seq<TlvMsg>) returns (at: seq<nat>)
    requires forall m :: m in accepted ==> Acceptable(m)
    ensures Forwards(accepted, EventsOf(accepted), at)
    decreases |accepted|
  {
    if accepted == [] {
      return [];
    }
    var last := |accepted| - 1;
    var m, shorter := accepted[last], accepted[..last];
    assert accepted == shorter + [m];
    var before := EventsForward(shorter);
    assert Acceptable(m);
    if m.msgType == 5 {
      return before;
    }
    ForwardsPush(shorter, EventsOf(shorter), before, m);
    return before + [last];
  }

  lemma ForwardsPush(accepted: seq<TlvMsg>, events: seq<Event>, at: seq<nat>, m: TlvMsg)
    requires Forwards(accepted, events, at) && (m.msgType == 0 || m.msgType == 1 || m.msgType == 3)
    ensures Forwards(accepted + [m], events + [Forwarded(m.seqNo, m.payload)], at + [|accepted|])
  {
    var at' := at + [|accepted|];
    forall n: nat | n < |accepted + [m]|
      ensures n in at' <==> (accepted + [m])[n].msgType == 0 || (accepted + [m])[n].msgType == 1
                            || (accepted + [m])[n].msgType == 3
    {
      assert n in at' <==> n in at || n == |accepted|;
      assert |accepted| !in at;
    }
  }

  /** How far the router has got with an episode. */
  function Progress(table: Table, ep: U64): nat {
    if ep in table then table[ep].seqNo + 1 else 0
  }

  /** Per episode, the accepted messages are the first ones of its script, in order, each once. */
  ghost predicate InOrder(script: Script, net: Net) {
    forall ep: U64 ::
      if ep in script then Progress(net.table, ep) <= |script[ep]|
                           && OfEpisode(net.accepted, ep) == script[ep][..Progress(net.table, ep)]
      else ep !in net.table && OfEpisode(net.accepted, ep) == []
  }

  ghost predicate IsAck(mac: Mac, script: Script, table: Table, ep: U64, n: nat, bytes: seq<Byte>) {
    ep in script && n < |script[ep]| && n < Progress(table, ep) && bytes == Encoded(AckOf(mac, script[ep][n]))
  }

  ghost predicate AcksOk(mac: Mac, script: Script, net: Net) {
    && (forall bytes :: bytes in net.acks ==> exists ep: U64, n: nat :: IsAck(mac, script, net.table, ep, n, bytes))
    && (forall ep :: ep in net.table ==> IsAck(mac, script, net.table, ep, net.table[ep].seqNo, net.table[ep].ack))
  }

  ghost predicate IsSent(script: Script, ep: U64, n: nat, bytes: seq<Byte>) {
    ep in script && n < |script[ep]| && bytes == Encoded(script[ep][n])
  }

  ghost predicate Inv(mac: Mac, script: Script, net: Net) {
    && InOrder(script, net)
    && net.events == EventsOf(net.accepted)
    && (forall m :: m in net.accepted ==> Acceptable(m))
    && AcksOk(mac, script, net)
    && (forall bytes :: bytes in net.datagrams ==> exists ep: U64, n: nat :: IsSent(script, ep, n, bytes))
    && (SpeaksNoAcks(script) ==> forall c :: c in net.confirmed ==> c.1 < Progress(net.table, c.0))
  }

  lemma StartInv(mac: Mac, script: Script)
    ensures Inv(mac, script, START)
  {
  }

  /** The router can read the datagram of a message exactly when it fits the receive buffer. */
  lemma Readable(mac: Mac, script: Script, ep: U64, n: nat)
    requires ScriptOk(mac, script) && ep in script && n < |script[ep]|
    ensures
      var m := script[ep][n];
      Authentic(mac, Truncate(Encoded(m), UDP_BUFFER)) == if OVERHEAD + |m.payload| <= UDP_BUFFER then Some(m) else None
  {
    var m := script[ep][n];
    TlvRoundTrip(m);
    Layout(m, []);
    assert Encoded(m) + [] == Encoded(m);
    if OVERHEAD + |m.payload| > UDP_BUFFER {
      assert Encoded(m)[..UDP_BUFFER][50..52] == Encoded(m)[50..52];
    }
  }

  /** The net after the router accepts a message. */
  ghost function AcceptMsg(mac: Mac, net: Net, m: TlvMsg): Net {
    var ack := Encoded(AckOf(mac, m));
    net.(table := net.table[m.episodeId := AckState(m.seqNo, ack)], accepted := net.accepted + [m],
         events := Note(net.events, EventOf(m)), acks := net.acks + {ack})
  }

  /** Accepting the next message of an episode extends its part of the log and no other's. */
  lemma AcceptInOrder(mac: Mac, script: Script, net: Net, ep: U64, n: nat)
    requires InOrder(script, net) && ep in script && n < |script[ep]| && n == Progress(net.table, ep)
    requires script[ep][n].episodeId == ep && script[ep][n].seqNo == n
    ensures InOrder(script, AcceptMsg(mac, net, script[ep][n]))
  {
    var net' := AcceptMsg(mac, net, script[ep][n]);
    assert (net.accepted + [script[ep][n]])[..|net.accepted|] == net.accepted;
    forall other: U64
      ensures
        if other in script then Progress(net'.table, other) <= |script[other]|
                                && OfEpisode(net'.accepted, other) == script[other][..Progress(net'.table, other)]
        else other !in net'.table && OfEpisode(net'.accepted, other) == []
    {
      if other == ep {
        assert script[ep][..n + 1] == script[ep][..n] + [script[ep][n]];
      }
    }
  }

  /** Acknowledgements stay good while the router makes progress. */
  lemma AcksKept(mac: Mac, script: Script, net: Net, net': Net)
    requires AcksOk(mac, script, net)
    requires forall ep: U64 :: Progress(net.table, ep) <= Progress(net'.table, ep)
    requires forall bytes :: bytes in net'.acks ==>
      bytes in net.acks || exists ep: U64, n: nat :: IsAck(mac, script, net'.table, ep, n, bytes)
    requires forall ep :: ep in net'.table ==>
      (ep in net.table && net'.table[ep] == net.table[ep])
      || IsAck(mac, script, net'.table, ep, net'.table[ep].seqNo, net'.table[ep].ack)
    ensures AcksOk(mac, script, net')
  {
    forall bytes | bytes in net'.acks ensures exists ep: U64, n: nat :: IsAck(mac, script, net'.table, ep, n, bytes) {
      if bytes in net.acks {
        var ep: U64, n: nat :| IsAck(mac, script, net.table, ep, n, bytes);
        assert IsAck(mac, script, net'.table, ep, n, bytes);
      }
    }
    forall ep | ep in net'.table ensures IsAck(mac, script, net'.table, ep, net'.table[ep].seqNo, net'.table[ep].ack) {
      if ep in net.table && net'.table[ep] == net.table[ep] {
        assert IsAck(mac, script, net.table, ep, net.table[ep].seqNo, net.table[ep].ack);
      }
    }
  }

  lemma ResendInv(mac: Mac, script: Script, net: Net, ep: U64)
    requires Inv(mac, script, net) && ep in net.table
    ensures Inv(mac, script, net.(acks := net.acks + {net.table[ep].ack}))
  {
    var net' := net.(acks := net.acks + {net.table[ep].ack});
    assert IsAck(mac, script, net.table, ep, net.table[ep].seqNo, net.table[ep].ack);
    AcksKept(mac, script, net, net');
  }

  lemma AcceptAcks(mac: Mac, script: Script, net: Net, ep: U64, n: nat)
    requires AcksOk(mac, script, net) && ep in script && n < |script[ep]| && n == Progress(net.table, ep)
    requires script[ep][n].episodeId == ep && script[ep][n].seqNo == n
    ensures AcksOk(mac, script, AcceptMsg(mac, net, script[ep][n]))
  {
    var net' := AcceptMsg(mac, net, script[ep][n]);
    assert IsAck(mac, script, net'.table, ep, n, Encoded(AckOf(mac, script[ep][n])));
    AcksKept(mac, script, net, net');
  }

  lemma AcceptInv(mac: Mac, script: Script, net: Net, ep: U64, n: nat)
    requires ScriptOk(mac, script) && Inv(mac, script, net)
    requires ep in script && n < |script[ep]| && n == Progress(net.table, ep) && Acceptable(script[ep][n])
    ensures Inv(mac, script, AcceptMsg(mac, net, script[ep][n]))
  {
    var m := script[ep][n];
    assert m.episodeId == ep && m.seqNo == n;
    AcceptInOrder(mac, script, net, ep, n);
    AcceptAcks(mac, script, net, ep, n);
    AcceptProgress(mac, net, m);
    assert (net.accepted + [m])[..|net.accepted|] == net.accepted;
  }

  lemma AcceptProgress(mac: Mac, net: Net, m: TlvMsg)
    requires m.seqNo == Progress(net.table, m.episodeId)
    ensures forall ep: U64 :: Progress(net.table, ep) <= Progress(AcceptMsg(mac, net, m).table, ep)
  {
  }

  lemma DecodedSendable(bytes: seq<Byte>)
    ensures Decoded(bytes).Some? ==> Sendable(Decoded(bytes).value)
  {
  }

  /** An authentic message with the bytes of a sendable one is that message. */
  lemma SameBytes(mac: Mac, bytes: seq<Byte>, m: TlvMsg)
    requires Authentic(mac, bytes).Some? && Sendable(m) && Encoded(Authentic(mac, bytes).value) == Encoded(m)
    ensures Authentic(mac, bytes) == Some(m)
  {
    DecodedSendable(bytes);
    TlvRoundTrip(Authentic(mac, bytes).value);
    TlvRoundTrip(m);
  }

  /** What delivering a message can do, whatever is appended to it. */
  lemma DeliverCases(mac: Mac, script: Script, net: Net, bytes: seq<Byte>, ep: U64, n: nat)
    requires ScriptOk(mac, script) && ep in script && n < |script[ep]|
    requires Authentic(mac, Truncate(bytes, UDP_BUFFER)) == Some(script[ep][n])
    requires Enabled(mac, script, net, Deliver(bytes))
    ensures
      var net' := Act(mac, script, net, Deliver(bytes));
      || net' == net
      || (ep in net.table && net' == net.(acks := net.acks + {net.table[ep].ack}))
      || (n == Progress(net.table, ep) && net' == AcceptMsg(mac, net, script[ep][n]) && Acceptable(script[ep][n]))
  {
    var m := script[ep][n];
    assert m.episodeId == ep && m.seqNo == n;
    if Judge(net.table, FromU8(m.msgType).value, m) == Accept {
      assert AcceptMsg(mac, net, m).table[ep].seqNo == n;
      assert AcceptMsg(mac, net, m).table != net.table;
    }
  }

  /** The router accepts a delivered message exactly when it is the next of its episode, opens
      the episode if and only if it is the first, and fits the receive buffer. */
  lemma AcceptedIff(mac: Mac, script: Script, net: Net, ep: U64, n: nat)
    requires ScriptOk(mac, script) && ep in script && n < |script[ep]| && Encoded(script[ep][n]) in net.datagrams
    ensures Enabled(mac, script, net, Deliver(Encoded(script[ep][n])))
    ensures
      var m := script[ep][n];
      Act(mac, script, net, Deliver(Encoded(m))) == AcceptMsg(mac, net, m) <==>
      n == Progress(net.table, ep) && Fitting(n, m) && OVERHEAD + |m.payload| <= UDP_BUFFER
  {
    var m := script[ep][n];
    assert m.episodeId == ep && m.seqNo == n;
    Readable(mac, script, ep, n);
    if OVERHEAD + |m.payload| <= UDP_BUFFER {
      DeliverCases(mac, script, net, Encoded(m), ep, n);
    }
    assert |AcceptMsg(mac, net, m).accepted| == |net.accepted| + 1;
    assert AcceptMsg(mac, net, m).table[ep].seqNo == n;
  }

  /** The first message must open the episode, and no other may. */
  predicate Fitting(n: nat, m: TlvMsg) {
    if n == 0 then m.msgType == ToU8(New) else m.msgType in {ToU8(Cmd), ToU8(Close), ToU8(Checkpoint)}
  }

  /** Bytes that carry no authentic tag do nothing. */
  lemma ForgeryIgnored(mac: Mac, script: Script, net: Net, bytes: seq<Byte>)
    requires Authentic(mac, Truncate(bytes, UDP_BUFFER)).None?
    ensures Act(mac, script, net, Deliver(bytes)) == net
  {
  }

  /** An acknowledgement that comes back to the router, whatever is appended to it, does nothing. */
  lemma ReflectionIgnored(mac: Mac, script: Script, net: Net, bytes: seq<Byte>)
    requires AcksOk(mac, script, net) && Enabled(mac, script, net, Deliver(bytes))
    requires
      var m := Authentic(mac, Truncate(bytes, UDP_BUFFER));
      m.Some? && Encoded(m.value) in net.acks
    ensures Act(mac, script, net, Deliver(bytes)) == net
  {
    var input := Truncate(bytes, UDP_BUFFER);
    var ep: U64, n: nat :| IsAck(mac, script, net.table, ep, n, Encoded(Authentic(mac, input).value));
    SameBytes(mac, input, AckOf(mac, script[ep][n]));
    AckIgnored(mac, net.table, input, script[ep][n]);
  }

  lemma AckIgnored(mac: Mac, table: Table, input: seq<Byte>, m: TlvMsg)
    requires Authentic(mac, input) == Some(AckOf(mac, m))
    ensures Receive(mac, table, input) == Effect(table, None, None)
  {
  }

  lemma DeliverInv(mac: Mac, script: Script, net: Net, bytes: seq<Byte>)
    requires ScriptOk(mac, script) && Inv(mac, script, net)
    requires Enabled(mac, script, net, Deliver(bytes))
    ensures Inv(mac, script, Act(mac, script, net, Deliver(bytes)))
  {
    var m := Authentic(mac, Truncate(bytes, UDP_BUFFER));
    if m.None? {
      ForgeryIgnored(mac, script, net, bytes);
    } else if Encoded(m.value) in net.acks {
      ReflectionIgnored(mac, script, net, bytes);
    } else {
      DatagramInv(mac, script, net, bytes);
    }
  }

  lemma DatagramInv(mac: Mac, script: Script, net: Net, bytes: seq<Byte>)
    requires ScriptOk(mac, script) && Inv(mac, script, net) && Enabled(mac, script, net, Deliver(bytes))
    requires
      var m := Authentic(mac, Truncate(bytes, UDP_BUFFER));
      m.Some? && Encoded(m.value) in net.datagrams
    ensures Inv(mac, script, Act(mac, script, net, Deliver(bytes)))
  {
    var input := Truncate(bytes, UDP_BUFFER);
    var ep: U64, n: nat :| IsSent(script, ep, n, Encoded(Authentic(mac, input).value));
    SameBytes(mac, input, script[ep][n]);
    DeliverCases(mac, script, net, bytes, ep, n);
    if ep in net.table {
      ResendInv(mac, script, net, ep);
    }
    if n == Progress(net.table, ep) && Acceptable(script[ep][n]) {
      AcceptInv(mac, script, net, ep, n);
    }
  }

  /** An acknowledgement says which message it is for. */
  lemma AckNames(mac: Mac, m: TlvMsg)
    ensures Decoded(Truncate(Encoded(AckOf(mac, m)), SENDER_BUFFER)) == Some(AckOf(mac, m))
  {
    Layout(AckOf(mac, m), []);
    assert Encoded(AckOf(mac, m)) + [] == Encoded(AckOf(mac, m));
    TlvRoundTrip(AckOf(mac, m));
  }

  /** Bytes read by a sender, from either direction of the wire, that acknowledge a message mean that
      the router accepted it. */
  lemma AckMeansAccepted(mac: Mac, script: Script, net: Net, ep: U64, n: nat, expectClose: bool, bytes: seq<Byte>)
    requires ScriptOk(mac, script) && Inv(mac, script, net) && SpeaksNoAcks(script)
    requires Enabled(mac, script, net, ReadReply(ep, n, expectClose, bytes))
    requires Acknowledges(mac, script[ep][n], expectClose, bytes)
    ensures n < Progress(net.table, ep)
  {
    var input := Truncate(bytes, SENDER_BUFFER);
    AcknowledgedBy(mac, script[ep][n], expectClose, bytes);
    assert script[ep][n].episodeId == ep && script[ep][n].seqNo == n;
    if Encoded(Authentic(mac, input).value) in net.datagrams {
      NoSenderAcks(mac, script, net, input);
    } else {
      AckOfAccepted(mac, script, net, input);
    }
  }

  lemma AcknowledgedBy(mac: Mac, m: TlvMsg, expectClose: bool, bytes: seq<Byte>)
    requires Acknowledges(mac, m, expectClose, bytes)
    ensures
      var ack := Authentic(mac, Truncate(bytes, SENDER_BUFFER));
      && ack.Some? && (ack.value.msgType == ToU8(Ack) || ack.value.msgType == ToU8(AckClose))
      && ack.value.episodeId == m.episodeId && ack.value.seqNo == m.seqNo
  {
  }

  lemma NoSenderAcks(mac: Mac, script: Script, net: Net, input: seq<Byte>)
    requires ScriptOk(mac, script) && Inv(mac, script, net) && SpeaksNoAcks(script)
    requires Authentic(mac, input).Some? && Encoded(Authentic(mac, input).value) in net.datagrams
    ensures Authentic(mac, input).value.msgType != ToU8(Ack) && Authentic(mac, input).value.msgType != ToU8(AckClose)
  {
    var ep: U64, n: nat :| IsSent(script, ep, n, Encoded(Authentic(mac, input).value));
    SameBytes(mac, input, script[ep][n]);
  }

  lemma AckOfAccepted(mac: Mac, script: Script, net: Net, input: seq<Byte>)
    requires ScriptOk(mac, script) && AcksOk(mac, script, net)
    requires Authentic(mac, input).Some? && Encoded(Authentic(mac, input).value) in net.acks
    ensures
      var ack := Authentic(mac, input).value;
      ack.seqNo < Progress(net.table, ack.episodeId)
  {
    var ep: U64, n: nat :| IsAck(mac, script, net.table, ep, n, Encoded(Authentic(mac, input).value));
    SameBytes(mac, input, AckOf(mac, script[ep][n]));
    assert script[ep][n].episodeId == ep && script[ep][n].seqNo == n;
  }

  lemma SendInv(mac: Mac, script: Script, net: Net, ep: U64, n: nat)
    requires Inv(mac, script, net) && ep in script && n < |script[ep]|
    ensures Inv(mac, script, net.(datagrams := net.datagrams + {Encoded(script[ep][n])}))
  {
    var net' := net.(datagrams := net.datagrams + {Encoded(script[ep][n])});
    assert IsSent(script, ep, n, Encoded(script[ep][n]));
    AcksKept(mac, script, net, net');
  }

  lemma ConfirmInv(mac: Mac, script: Script, net: Net, ep: U64, n: nat)
    requires Inv(mac, script, net) && (SpeaksNoAcks(script) ==> n < Progress(net.table, ep))
    ensures Inv(mac, script, net.(confirmed := net.confirmed + {(ep, n)}))
  {
    var net' := net.(confirmed := net.confirmed + {(ep, n)});
    AcksKept(mac, script, net, net');
    assert net'.table == net.table;
  }

  /** Every action keeps the invariant. */
  lemma ActInv(mac: Mac, script: Script, net: Net, act: Action)
    requires ScriptOk(mac, script) && Inv(mac, script, net) && Enabled(mac, script, net, act)
    ensures Inv(mac, script, Act(mac, script, net, act))
  {
    match act {
      case Send(ep, n) => SendInv(mac, script, net, ep, n);
      case Deliver(bytes) => DeliverInv(mac, script, net, bytes);
      case ReadReply(ep, n, expectClose, bytes) =>
        if Acknowledges(mac, script[ep][n], expectClose, bytes) {
          if SpeaksNoAcks(script) {
            AckMeansAccepted(mac, script, net, ep, n, expectClose, bytes);
          }
          ConfirmInv(mac, script, net, ep, n);
        }
    }
  }

  /** Runs of the protocol. */

  ghost predicate Possible(mac: Mac, script: Script, net: Net, acts: seq<Action>)
    decreases |acts|
  {
    acts != [] ==>
      Enabled(mac, script, net, acts[0])
      && Possible(mac, script, Act(mac, script, net, acts[0]), acts[1..])
  }

  ghost function After(mac: Mac, script: Script, net: Net, acts: seq<Action>): Net
    requires Possible(mac, script, net, acts)
    decreases |acts|
  {
    if acts == [] then net else After(mac, script, Act(mac, script, net, acts[0]), acts[1..])
  }

  lemma {:induction false} AfterInv(mac: Mac, script: Script, net: Net, acts: seq<Action>)
    requires ScriptOk(mac, script) && Inv(mac, script, net) && Possible(mac, script, net, acts)
    ensures Inv(mac, script, After(mac, script, net, acts))
    decreases |acts|
  {
    if acts != [] {
      ActInv(mac, script, net, acts[0]);
      AfterInv(mac, script, Act(mac, script, net, acts[0]), acts[1..]);
    }
  }

  lemma {:induction false} CountInEpisode(msgs: seq<TlvMsg>, m: TlvMsg)
    ensures multiset(msgs)[m] == multiset(OfEpisode(msgs, m.episodeId))[m]
  {
    if msgs != [] {
      var last := |msgs| - 1;
      CountInEpisode(msgs[..last], m);
      assert msgs == msgs[..last] + [msgs[last]];
    }
  }

  lemma {:induction false} CountInPrefix(msgs: seq<TlvMsg>, k: nat, n: nat)
    requires n < |msgs| && k <= |msgs|
    requires forall i :: 0 <= i < |msgs| ==> msgs[i].seqNo == i
    ensures multiset(msgs[..k])[msgs[n]] == if n < k then 1 else 0
    decreases k
  {
    if k > 0 {
      CountInPrefix(msgs, k - 1, n);
      assert msgs[..k] == msgs[..k - 1] + [msgs[k - 1]];
    }
  }

  /** Whatever the network does: per episode the router has accepted messages 0 to its last
      sequence number, in order, each exactly once and no other; it has forwarded exactly the
      non-checkpoints among them; and, if no sender sends acknowledgements of its own, a sender that
      saw its message acknowledged can be sure that the message was accepted exactly once. */
  lemma ExactlyOnceInOrder(mac: Mac, script: Script, acts: seq<Action>, ep: U64, n: nat)
    requires ScriptOk(mac, script) && Possible(mac, script, START, acts)
    requires ep in script && n < |script[ep]|
    ensures
      var net := After(mac, script, START, acts);
      && Progress(net.table, ep) <= |script[ep]|
      && OfEpisode(net.accepted, ep) == script[ep][..Progress(net.table, ep)]
      && multiset(net.accepted)[script[ep][n]] == (if n < Progress(net.table, ep) then 1 else 0)
      && net.events == EventsOf(net.accepted) && (exists at :: Forwards(net.accepted, net.events, at))
      && (SpeaksNoAcks(script) && (ep, n) in net.confirmed ==> multiset(net.accepted)[script[ep][n]] == 1)
  {
    StartInv(mac, script);
    AfterInv(mac, script, START, acts);
    var net := After(mac, script, START, acts);
    assert script[ep][n].episodeId == ep;
    CountInEpisode(net.accepted, script[ep][n]);
    CountInPrefix(script[ep], Progress(net.table, ep), n);
    var at := EventsForward(net.accepted);
  }

  /** Progress: one sending of a message that arrives, and whose reply, if any, is read. */
  ghost function Round(mac: Mac, script: Script, net: Net, ep: U64, n: nat, expectClose: bool): Net
    requires ep in script && n < |script[ep]| && ScriptOk(mac, script)
  {
    var bytes := Encoded(script[ep][n]);
    var sent := Act(mac, script, net, Send(ep, n));
    AcceptedIff(mac, script, sent, ep, n);
    var delivered := Act(mac, script, sent, Deliver(bytes));
    var reply := Receive(mac, net.table, Truncate(bytes, UDP_BUFFER)).reply;
    if reply.Some? && OnWire(mac, delivered, Truncate(reply.value, SENDER_BUFFER))
    then Act(mac, script, delivered, ReadReply(ep, n, expectClose, reply.value)) else delivered
  }

  /** It confirms the message exactly if the message fits the receive buffer, is the next of its
      episode and fits there, or is the one accepted last, and the sender waits for the kind of
      acknowledgement that its kind of message gets. */
  lemma RoundConfirmsIff(mac: Mac, script: Script, net: Net, ep: U64, n: nat, expectClose: bool)
    requires ScriptOk(mac, script) && AcksOk(mac, script, net) && ep in script && n < |script[ep]|
    ensures
      var m := script[ep][n];
      (ep, n) in Round(mac, script, net, ep, n, expectClose).confirmed <==>
      || (ep, n) in net.confirmed
      || (&& OVERHEAD + |m.payload| <= UDP_BUFFER && (expectClose <==> m.msgType == ToU8(Close))
          && m.msgType != ToU8(Ack) && m.msgType != ToU8(AckClose)
          && ((n == Progress(net.table, ep) && Fitting(n, m)) || n + 1 == Progress(net.table, ep)))
  {
    RoundReads(mac, script, net, ep, n, expectClose);
    RepliesIff(mac, script, net, ep, n);
    AckAcknowledgesIff(mac, script[ep][n], expectClose);
  }

  lemma RoundReads(mac: Mac, script: Script, net: Net, ep: U64, n: nat, expectClose: bool)
    requires ScriptOk(mac, script) && AcksOk(mac, script, net) && ep in script && n < |script[ep]|
    ensures
      var m := script[ep][n];
      var reply := Receive(mac, net.table, Truncate(Encoded(m), UDP_BUFFER)).reply;
      Round(mac, script, net, ep, n, expectClose).confirmed ==
      if reply.Some? && Acknowledges(mac, m, expectClose, reply.value) then net.confirmed + {(ep, n)}
      else net.confirmed
  {
    var m := script[ep][n];
    var sent := Act(mac, script, net, Send(ep, n));
    AcceptedIff(mac, script, sent, ep, n);
    var delivered := Act(mac, script, sent, Deliver(Encoded(m)));
    RepliesIff(mac, script, net, ep, n);
    if Receive(mac, net.table, Truncate(Encoded(m), UDP_BUFFER)).reply.Some? {
      assert Encoded(AckOf(mac, m)) in delivered.acks;
      AckOnWire(mac, delivered, m);
    }
  }

  lemma AckOnWire(mac: Mac, net: Net, m: TlvMsg)
    requires Encoded(AckOf(mac, m)) in net.acks
    ensures OnWire(mac, net, Truncate(Encoded(AckOf(mac, m)), SENDER_BUFFER))
  {
    AckNames(mac, m);
  }

  /** When the router replies to a message, and what. */
  lemma RepliesIff(mac: Mac, script: Script, net: Net, ep: U64, n: nat)
    requires ScriptOk(mac, script) && AcksOk(mac, script, net) && ep in script && n < |script[ep]|
    ensures
      var m := script[ep][n];
      var reply := Receive(mac, net.table, Truncate(Encoded(m), UDP_BUFFER)).reply;
      && (reply.Some? <==>
            && OVERHEAD + |m.payload| <= UDP_BUFFER && m.msgType != ToU8(Ack) && m.msgType != ToU8(AckClose)
            && ((n == Progress(net.table, ep) && Fitting(n, m)) || n + 1 == Progress(net.table, ep)))
      && (reply.Some? ==> reply.value == Encoded(AckOf(mac, m)))
  {
    var m := script[ep][n];
    assert m.episodeId == ep && m.seqNo == n;
    Readable(mac, script, ep, n);
    if n + 1 == Progress(net.table, ep) {
      assert IsAck(mac, script, net.table, ep, net.table[ep].seqNo, net.table[ep].ack);
    }
  }

  lemma AckAcknowledgesIff(mac: Mac, m: TlvMsg, expectClose: bool)
    ensures Acknowledges(mac, m, expectClose, Encoded(AckOf(mac, m))) <==> (expectClose <==> m.msgType == ToU8(Close))
  {
    AckNames(mac, m);
  }
}
