/** The off-chain path end to end: from the senders' scripts, over an unreliable network and a
    router, to what the engine behind it holds. */
module OffChain {
  import opened Wrappers
  import opened Primitives
  import opened Sequences
  import opened LittleEndian
  import opened Episodes
  import opened Tlv
  import opened Routing
  import opened Delivery
  import opened EngineSpec
  import opened EngineFrame
  import opened EngineReorg
  import opened EngineSlices
  import opened EngineTransparency
  import opened EngineEpisodes

  /** Routers stamp every event with the default hash. */
  function DefaultHash(): Hash {
    Hash(seq(32, _ => 0))
  }

  function TxOf(ev: Event): Tx {
    Tx(DefaultHash(), ev.payload, None)
  }

  function BlockOf(ev: Event, time: nat): Block {
    Block(DefaultHash(), ev.daa, time, [TxOf(ev)])
  }

  /** The engine's messages for a router's events; `times` are the clock's readings. */
  function Feed(events: seq<Event>, times: seq<nat>): seq<EngineMsg>
    requires |times| == |events|
  {
    if events == [] then []
    else
      var last := |events| - 1;
      Feed(events[..last], times[..last]) + [BlkAccepted(BlockOf(events[last], times[last]))]
  }

  function EpisodeAt<S, R>(e: State<S, R>, id: EpisodeId): Option<Wrapper<S, R>> {
    if id in e.episodes then Some(e.episodes[id]) else None
  }

  /** The id in a message's header, by which routers sequence, is the one in its payload, by which
      the engine dispatches. The source compares them nowhere. */
  predicate Addressed<S, C, R, E>(h: Host<S, C, R, E>, m: TlvMsg) {
    h.parse(m.payload).Some? ==> h.parse(m.payload).value.id == m.episodeId
  }

  /** Sequence numbers double as scores: none so large that age filtering could prune. */
  predicate Plain<S, C, R, E>(h: Host<S, C, R, E>, m: TlvMsg) {
    Addressed(h, m) && m.seqNo <= EPISODE_LIFETIME
  }

  lemma {:induction false} FeedPush(events: seq<Event>, times: seq<nat>, ev: Event, time: nat)
    requires |times| == |events|
    ensures Feed(events + [ev], times + [time]) == Feed(events, times) + [BlkAccepted(BlockOf(ev, time))]
  {
    assert (events + [ev])[..|events|] == events && (times + [time])[..|times|] == times;
  }

  lemma {:induction false} NoExit(events: seq<Event>, times: seq<nat>)
    requires |times| == |events|
    ensures Exit !in Feed(events, times)
    decreases |events|
  {
    if events != [] {
      NoExit(events[..|events| - 1], times[..|events| - 1]);
    }
  }

  /** Receiving one more event, early in an engine's life, is running its one transaction. */
  lemma OneMore<S, C, R, E>(h: Host<S, C, R, E>, e: State<S, R>, events: seq<Event>, times: seq<nat>, ev: Event,
                            time: nat)
    requires |times| == |events| && ev.daa <= EPISODE_LIFETIME
    ensures
      var before, after := Run(h, e, Feed(events, times)), Run(h, e, Feed(events + [ev], times + [time]));
      after.episodes == RunTx(h, before, BlockOf(ev, time), TxOf(ev)).0.episodes
  {
    FeedPush(events, times, ev, time);
    NoExit(events, times);
    var b := BlockOf(ev, time);
    RunConcat(h, e, Feed(events, times), [BlkAccepted(b)]);
    var before := Run(h, e, Feed(events, times));
    assert Run(h, before, [BlkAccepted(b)]) == AcceptBlock(h, before, b);
    AcceptOne(h, before, b);
  }

  lemma AcceptOne<S, C, R, E>(h: Host<S, C, R, E>, e: State<S, R>, b: Block)
    requires |b.txs| == 1 && b.daa <= EPISODE_LIFETIME
    ensures AcceptBlock(h, e, b).episodes == RunTx(h, e, b, b.txs[0]).0.episodes
  {
    var e0 := Filter(e, b.daa);
    assert PrunedBy(e, b.daa) == {};
    assert e0.episodes == e.episodes;
    RunTxsPush(h, e0, b, [], b.txs[0]);
    assert [] + [b.txs[0]] == b.txs;
    EpisodesOnly(h, e0, e, b, b.txs[0]);
  }

  lemma EpisodesOnly<S, C, R, E>(h: Host<S, C, R, E>, e: State<S, R>, f: State<S, R>, b: Block, tx: Tx)
    requires e.episodes == f.episodes
    ensures RunTx(h, e, b, tx).0.episodes == RunTx(h, f, b, tx).0.episodes
  {
    match h.parse(tx.payload) {
      case Some(SignedCommand(id, cmd, pk, sig)) => PerformEpisodes(h, e, f, id, cmd, Some(pk), MetadataOf(b, tx));
      case Some(UnsignedCommand(id, cmd)) => PerformEpisodes(h, e, f, id, cmd, None, MetadataOf(b, tx));
      case _ =>
    }
  }

  lemma PerformEpisodes<S, C, R, E>(
    h: Host<S, C, R, E>, e: State<S, R>, f: State<S, R>, id: EpisodeId, cmd: C, auth: Option<PubKey>,
    md: PayloadMetadata)
    requires e.episodes == f.episodes
    ensures Perform(h, e, id, cmd, auth, md).0.episodes == Perform(h, f, id, cmd, auth, md).0.episodes
  {
  }

  /** What a transaction does to an episode depends on that episode alone. */
  lemma RunTxLocal<S, C, R, E>(h: Host<S, C, R, E>, e: State<S, R>, f: State<S, R>, b: Block, tx: Tx, id: EpisodeId)
    requires EpisodeAt(e, id) == EpisodeAt(f, id)
    ensures EpisodeAt(RunTx(h, e, b, tx).0, id) ==
            if IsFor(h, tx, id) then EpisodeAt(RunTx(h, f, b, tx).0, id) else EpisodeAt(e, id)
  {
  }

  /** The clock's readings for one episode's events. */
  function OwnTimes(accepted: seq<TlvMsg>, times: seq<nat>, ep: U64): (own: seq<nat>)
    requires |times| == |EventsOf(accepted)|
    ensures |own| == |EventsOf(OfEpisode(accepted, ep))|
    decreases |accepted|
  {
    if accepted == [] then []
    else
      var m, shorter := accepted[|accepted| - 1], accepted[..|accepted| - 1];
      var mine := OfEpisode(shorter, ep);
      assert (mine + [m])[..|mine|] == mine;
      if EventOf(m).None? then OwnTimes(shorter, times, ep)
      else
        var own := OwnTimes(shorter, times[..|times| - 1], ep);
        if m.episodeId == ep then own + [times[|times| - 1]] else own
  }

  /** What one more accepted message adds to the events, to the episode's own, and to its times. */
  lemma OneAccepted(accepted: seq<TlvMsg>, times: seq<nat>, ep: U64)
    requires accepted != [] && |times| == |EventsOf(accepted)|
    ensures
      var m, shorter := accepted[|accepted| - 1], accepted[..|accepted| - 1];
      var mine, mine' := EventsOf(OfEpisode(shorter, ep)), EventsOf(OfEpisode(accepted, ep));
      match EventOf(m)
      case None =>
        && EventsOf(accepted) == EventsOf(shorter) && mine' == mine
        && OwnTimes(accepted, times, ep) == OwnTimes(shorter, times, ep)
      case Some(ev) =>
        && times != []
        && var time, before := times[|times| - 1], times[..|times| - 1];
           && EventsOf(accepted) == EventsOf(shorter) + [ev] && times == before + [time]
           && mine' == (if m.episodeId == ep then mine + [ev] else mine)
           && var own := OwnTimes(shorter, before, ep);
              OwnTimes(accepted, times, ep) == if m.episodeId == ep then own + [time] else own
  {
    var m, shorter := accepted[|accepted| - 1], accepted[..|accepted| - 1];
    var mine := OfEpisode(shorter, ep);
    assert (mine + [m])[..|mine|] == mine;
  }

  lemma FedOneMore<S, C, R, E>(
    h: Host<S, C, R, E>, all: seq<Event>, times: seq<nat>, mine: seq<Event>, own: seq<nat>,
    ev: Event, time: nat, ep: U64, isMine: bool)
    requires |times| == |all| && |own| == |mine| && ev.daa <= EPISODE_LIFETIME
    requires !isMine ==> !IsFor(h, TxOf(ev), ep)
    requires EpisodeAt(Run(h, Initial(), Feed(all, times)), ep) == EpisodeAt(Run(h, Initial(), Feed(mine, own)), ep)
    ensures EpisodeAt(Run(h, Initial(), Feed(all + [ev], times + [time])), ep) ==
      if isMine then EpisodeAt(Run(h, Initial(), Feed(mine + [ev], own + [time])), ep)
      else EpisodeAt(Run(h, Initial(), Feed(mine, own)), ep)
  {
    var e, f := Run(h, Initial(), Feed(all, times)), Run(h, Initial(), Feed(mine, own));
    OneMore(h, Initial(), all, times, ev, time);
    OneMore(h, Initial(), mine, own, ev, time);
    RunTxLocal(h, e, f, BlockOf(ev, time), TxOf(ev), ep);
    RunTxLocal(h, f, f, BlockOf(ev, time), TxOf(ev), ep);
  }

  /** An episode behind a busy router is what it would be behind a router of its own. */
  lemma {:induction false} FedAlone<S, C, R, E>(h: Host<S, C, R, E>, accepted: seq<TlvMsg>, times: seq<nat>, ep: U64)
    requires |times| == |EventsOf(accepted)|
    requires forall m :: m in accepted ==> Plain(h, m)
    ensures
      EpisodeAt(Run(h, Initial(), Feed(EventsOf(accepted), times)), ep) ==
      EpisodeAt(Run(h, Initial(), Feed(EventsOf(OfEpisode(accepted, ep)), OwnTimes(accepted, times, ep))), ep)
    decreases |accepted|
  {
    if accepted != [] {
      var m, shorter := accepted[|accepted| - 1], accepted[..|accepted| - 1];
      assert Plain(h, m);
      OneAccepted(accepted, times, ep);
      if EventOf(m).None? {
        FedAlone(h, shorter, times, ep);
      } else {
        var ev, time, before := EventOf(m).value, times[|times| - 1], times[..|times| - 1];
        FedAlone(h, shorter, before, ep);
        FedOneMore(h, EventsOf(shorter), before, EventsOf(OfEpisode(shorter, ep)), OwnTimes(shorter, before, ep),
                   ev, time, ep, m.episodeId == ep);
      }
    }
  }

  /** Every message a script contains is addressed to its own episode, and numbered early enough. */
  ghost predicate ScriptFor<S, C, R, E>(h: Host<S, C, R, E>, script: Script) {
    forall ep: U64, m: TlvMsg :: ep in script && m in script[ep] ==> Plain(h, m)
  }

  lemma {:induction false} InOfEpisode(msgs: seq<TlvMsg>, m: TlvMsg)
    requires m in msgs
    ensures m in OfEpisode(msgs, m.episodeId)
  {
    var last := |msgs| - 1;
    assert msgs == msgs[..last] + [msgs[last]];
    if m in msgs[..last] {
      InOfEpisode(msgs[..last], m);
    }
  }

  lemma AcceptedIsPlain<S, C, R, E>(h: Host<S, C, R, E>, script: Script, net: Net, m: TlvMsg)
    requires ScriptFor(h, script) && InOrder(script, net) && m in net.accepted
    ensures Plain(h, m)
  {
    InOfEpisode(net.accepted, m);
    var ep := m.episodeId;
    assert ep in script && m in script[ep][..Progress(net.table, ep)];
  }

  /** Whatever the network drops, duplicates and reorders, and however many episodes share router
      and engine: the engine holds of each episode what it would hold if it had been handed the
      first messages of that episode's script, in order, each once, and nothing else. */
  lemma OffChainEpisode<S, C, R, E>(
    h: Host<S, C, R, E>, mac: Mac, script: Script, acts: seq<Action>, times: seq<nat>, ep: U64)
    requires ScriptOk(mac, script) && ScriptFor(h, script) && Possible(mac, script, START, acts)
    requires ep in script && |times| == |After(mac, script, START, acts).events|
    ensures
      var net := After(mac, script, START, acts);
      && Progress(net.table, ep) <= |script[ep]| && |times| == |EventsOf(net.accepted)|
      && var mine := EventsOf(script[ep][..Progress(net.table, ep)]);
         var own := OwnTimes(net.accepted, times, ep);
         && |own| == |mine|
         && EpisodeAt(Run(h, Initial(), Feed(net.events, times)), ep) ==
           EpisodeAt(Run(h, Initial(), Feed(mine, own)), ep)
  {
    StartInv(mac, script);
    AfterInv(mac, script, START, acts);
    var net := After(mac, script, START, acts);
    forall m | m in net.accepted ensures Plain(h, m) {
      AcceptedIsPlain(h, script, net, m);
    }
    FedAlone(h, net.accepted, times, ep);
  }

  /** What a command sent off chain is executed under: no block, no transaction and no outputs, with the
      message's number as score and the clock's reading as time. */
  function OffChainMetadata(number: nat, time: nat): PayloadMetadata {
    PayloadMetadata(Hash(seq(32, _ => 0)), number, time, Hash(seq(32, _ => 0)), None)
  }

  /** The call an event makes, if it parses to a command and, when signed, verifies. */
  function CallOf<S, C, R, E>(h: Host<S, C, R, E>, ev: Event, time: nat): Option<Call<C>> {
    var md := OffChainMetadata(ev.daa, time);
    match h.parse(ev.payload)
    case Some(SignedCommand(_, cmd, pk, sig)) => if h.verify(pk, cmd, sig) then Some(Call(cmd, Some(pk), md)) else None
    case Some(UnsignedCommand(_, cmd)) => Some(Call(cmd, None, md))
    case _ => None
  }

  function CallsOf<S, C, R, E>(h: Host<S, C, R, E>, events: seq<Event>, times: seq<nat>): seq<Call<C>>
    requires |times| == |events|
    decreases |events|
  {
    if events == [] then []
    else
      var last := |events| - 1;
      Note(CallsOf(h, events[..last], times[..last]), CallOf(h, events[last], times[last]))
  }

  /** An event is for the episode, or unreadable, and numbered early enough. */
  predicate EventFor<S, C, R, E>(h: Host<S, C, R, E>, ev: Event, id: EpisodeId) {
    (h.parse(ev.payload).Some? ==> h.parse(ev.payload).value.id == id) && ev.daa <= EPISODE_LIFETIME
  }

  /** An event runs its call, if it makes one, on the live episode it is for. */
  lemma EventIsCall<S, C, R, E>(h: Host<S, C, R, E>, e: State<S, R>, ev: Event, time: nat, id: EpisodeId)
    requires EventFor(h, ev, id) && EpisodeAt(e, id).Some?
    ensures
      var w := EpisodeAt(e, id).value;
      EpisodeAt(RunTx(h, e, BlockOf(ev, time), TxOf(ev)).0, id) ==
      match CallOf(h, ev, time)
      case None => Some(w)
      case Some(call) =>
        var (s, res) := h.ep.execute(w.episode, call.cmd, call.auth, call.md);
        Some(Wrapper(s, if res.Ok? then w.stack + [res.value] else w.stack))
  {
  }

  lemma EventExecutes<S, C, R, E>(
    h: Host<S, C, R, E>, e: State<S, R>, ev: Event, time: nat, id: EpisodeId, start: S, calls: seq<Call<C>>)
    requires EventFor(h, ev, id)
    requires EpisodeAt(e, id) == Some(Wrapper(ExecuteAll(h.ep, start, calls).0, ExecuteAll(h.ep, start, calls).1))
    ensures
      var calls' := Note(calls, CallOf(h, ev, time));
      EpisodeAt(RunTx(h, e, BlockOf(ev, time), TxOf(ev)).0, id) ==
      Some(Wrapper(ExecuteAll(h.ep, start, calls').0, ExecuteAll(h.ep, start, calls').1))
  {
    EventIsCall(h, e, ev, time, id);
    var call := CallOf(h, ev, time);
    if call.Some? {
      assert (calls + [call.value])[..|calls|] == calls;
    }
  }

  function StartOf<S, C, R, E>(h: Host<S, C, R, E>, ev: Event, time: nat, ps: seq<PubKey>): S {
    h.ep.initialize(ps, OffChainMetadata(ev.daa, time))
  }

  /** An engine handed a creation and then one episode's events holds that episode with all its
      commands executed in order, and one rollback for each that was accepted. */
  lemma {:induction false} AloneExecutes<S, C, R, E>(
    h: Host<S, C, R, E>, events: seq<Event>, times: seq<nat>, id: EpisodeId, ps: seq<PubKey>)
    requires events != [] && |times| == |events|
    requires h.parse(events[0].payload) == Some(NewEpisode(id, ps))
    requires forall ev :: ev in events ==> EventFor(h, ev, id)
    ensures
      var (s, stack) := ExecuteAll(h.ep, StartOf(h, events[0], times[0], ps), CallsOf(h, events[1..], times[1..]));
      EpisodeAt(Run(h, Initial(), Feed(events, times)), id) == Some(Wrapper(s, stack))
    decreases |events|
  {
    var last := |events| - 1;
    var ev, time, shorter, before := events[last], times[last], events[..last], times[..last];
    SplitLast(events);
    SplitLast(times);
    assert EventFor(h, ev, id);
    OneMore(h, Initial(), shorter, before, ev, time);
    if last == 0 {
      Created(h, ev, time, id, ps);
    } else {
      forall e | e in shorter ensures EventFor(h, e, id) {
        assert e in events;
      }
      AloneExecutes(h, shorter, before, id, ps);
      CallsPush(h, events, times);
      EventExecutes(h, Run(h, Initial(), Feed(shorter, before)), ev, time, id,
                    StartOf(h, events[0], times[0], ps), CallsOf(h, shorter[1..], before[1..]));
    }
  }

  lemma CallsPush<S, C, R, E>(h: Host<S, C, R, E>, events: seq<Event>, times: seq<nat>)
    requires |events| > 1 && |times| == |events|
    ensures
      var last := |events| - 1;
      CallsOf(h, events[1..], times[1..]) ==
      Note(CallsOf(h, events[..last][1..], times[..last][1..]), CallOf(h, events[last], times[last]))
  {
    var last := |events| - 1;
    assert events[1..][..last - 1] == events[..last][1..] && times[1..][..last - 1] == times[..last][1..];
  }

  lemma Created<S, C, R, E>(h: Host<S, C, R, E>, ev: Event, time: nat, id: EpisodeId, ps: seq<PubKey>)
    requires h.parse(ev.payload) == Some(NewEpisode(id, ps))
    ensures EpisodeAt(RunTx(h, Initial(), BlockOf(ev, time), TxOf(ev)).0, id) ==
      Some(Wrapper(StartOf(h, ev, time, ps), []))
  {
  }

  /** The messages a router hands on: all but checkpoints. */
  function Spoken(msgs: seq<TlvMsg>): nat {
    if msgs == [] then 0
    else Spoken(msgs[..|msgs| - 1]) + if msgs[|msgs| - 1].msgType == 5 then 0 else 1
  }

  /** The call a message makes: its payload's command, for the key it names if it is signed and verifies. */
  function CallSaid<S, C, R, E>(h: Host<S, C, R, E>, m: TlvMsg, time: nat): Option<Call<C>> {
    match h.parse(m.payload)
    case Some(SignedCommand(_, cmd, pk, sig)) =>
      if h.verify(pk, cmd, sig) then Some(Call(cmd, Some(pk), OffChainMetadata(m.seqNo, time))) else None
    case Some(UnsignedCommand(_, cmd)) => Some(Call(cmd, None, OffChainMetadata(m.seqNo, time)))
    case _ => None
  }

  /** The calls that messages make, in order; `times` are the clock's readings for those handed on. */
  function Said<S, C, R, E>(h: Host<S, C, R, E>, msgs: seq<TlvMsg>, times: seq<nat>): seq<Call<C>>
    requires |times| == Spoken(msgs)
    decreases |msgs|
  {
    if msgs == [] then []
    else
      var m, shorter := msgs[|msgs| - 1], msgs[..|msgs| - 1];
      if m.msgType == 5 then Said(h, shorter, times)
      else
        var call := CallSaid(h, m, times[|times| - 1]);
        Said(h, shorter, times[..|times| - 1]) + if call.Some? then [call.value] else []
  }

  lemma {:induction false} EventsSay<S, C, R, E>(h: Host<S, C, R, E>, msgs: seq<TlvMsg>, times: seq<nat>)
    requires |times| == |EventsOf(msgs)|
    ensures Spoken(msgs) == |EventsOf(msgs)| && CallsOf(h, EventsOf(msgs), times) == Said(h, msgs, times)
    decreases |msgs|
  {
    if msgs != [] {
      var m, shorter := msgs[|msgs| - 1], msgs[..|msgs| - 1];
      if m.msgType == 5 {
        EventsSay(h, shorter, times);
      } else {
        assert EventsOf(msgs) == EventsOf(shorter) + [Forwarded(m.seqNo, m.payload)];
        EventsSay(h, shorter, times[..|times| - 1]);
        CallsOneMore(h, EventsOf(shorter), times, m);
      }
    }
  }

  lemma CallsOneMore<S, C, R, E>(h: Host<S, C, R, E>, events: seq<Event>, times: seq<nat>, m: TlvMsg)
    requires |times| == |events| + 1
    ensures
      var call := CallSaid(h, m, times[|times| - 1]);
      CallsOf(h, events + [Forwarded(m.seqNo, m.payload)], times) ==
      CallsOf(h, events, times[..|times| - 1]) + if call.Some? then [call.value] else []
  {
    var ev := Forwarded(m.seqNo, m.payload);
    assert (events + [ev])[..|events|] == events;
    assert CallOf(h, ev, times[|times| - 1]) == CallSaid(h, m, times[|times| - 1]);
  }

  /** What comes after the first message. */
  lemma {:induction false} EventsAfter(m: TlvMsg, msgs: seq<TlvMsg>)
    requires m.msgType != 5
    ensures EventsOf([m] + msgs) == [Forwarded(m.seqNo, m.payload)] + EventsOf(msgs)
    decreases |msgs|
  {
    if msgs == [] {
      assert [m] + [] == [m] && [m][..0] == [];
    } else {
      var last := |msgs| - 1;
      assert ([m] + msgs)[..|[m] + msgs| - 1] == [m] + msgs[..last];
      EventsAfter(m, msgs[..last]);
    }
  }

  lemma {:induction false} EventsAreFor<S, C, R, E>(h: Host<S, C, R, E>, msgs: seq<TlvMsg>, ep: U64, ev: Event)
    requires forall m :: m in msgs ==> Plain(h, m) && m.episodeId == ep
    requires ev in EventsOf(msgs)
    ensures EventFor(h, ev, ep)
    decreases |msgs|
  {
    var last := |msgs| - 1;
    assert Plain(h, msgs[last]) && msgs[last].episodeId == ep;
    if ev in EventsOf(msgs[..last]) {
      EventsAreFor(h, msgs[..last], ep, ev);
    }
  }

  /** End to end: once the router has accepted the opening message of a script, the engine holds that
      script's episode, initialised under the opening message's number, with the commands of the
      accepted messages after it, checkpoints apart, executed in script order, each once, under its
      message's number and for its signer, and one pending rollback for each that the episode accepted. */
  lemma OffChainExecutesScript<S, C, R, E>(
    h: Host<S, C, R, E>, mac: Mac, script: Script, acts: seq<Action>, times: seq<nat>, ep: U64, ps: seq<PubKey>)
    requires ScriptOk(mac, script) && ScriptFor(h, script) && Possible(mac, script, START, acts)
    requires ep in script && |times| == |After(mac, script, START, acts).events|
    requires script[ep] != [] && script[ep][0].msgType != 5
    requires h.parse(script[ep][0].payload) == Some(NewEpisode(ep, ps))
    requires Progress(After(mac, script, START, acts).table, ep) > 0
    ensures
      var net := After(mac, script, START, acts);
      var heard := Progress(net.table, ep);
      && heard <= |script[ep]| && |times| == |EventsOf(net.accepted)|
      && var own := OwnTimes(net.accepted, times, ep);
         && own != [] && |own[1..]| == Spoken(script[ep][1..heard])
         && var start := h.ep.initialize(ps, OffChainMetadata(script[ep][0].seqNo, own[0]));
            var (s, stack) := ExecuteAll(h.ep, start, Said(h, script[ep][1..heard], own[1..]));
            EpisodeAt(Run(h, Initial(), Feed(net.events, times)), ep) == Some(Wrapper(s, stack))
  {
    OffChainEpisode(h, mac, script, acts, times, ep);
    var net := After(mac, script, START, acts);
    var heard, own := script[ep][..Progress(net.table, ep)], OwnTimes(net.accepted, times, ep);
    var first, rest := script[ep][0], script[ep][1..Progress(net.table, ep)];
    assert heard == [first] + rest;
    EventsAfter(first, rest);
    EventsSay(h, rest, own[1..]);
    ScriptExecutes(h, mac, script, ep, Progress(net.table, ep), own, ps);
  }

  lemma ScriptExecutes<S, C, R, E>(
    h: Host<S, C, R, E>, mac: Mac, script: Script, ep: U64, k: nat, own: seq<nat>, ps: seq<PubKey>)
    requires ScriptOk(mac, script) && ScriptFor(h, script) && ep in script && 0 < k <= |script[ep]|
    requires |own| == |EventsOf(script[ep][..k])| && EventsOf(script[ep][..k]) != []
    requires h.parse(EventsOf(script[ep][..k])[0].payload) == Some(NewEpisode(ep, ps))
    ensures
      var mine := EventsOf(script[ep][..k]);
      var (s, stack) := ExecuteAll(h.ep, StartOf(h, mine[0], own[0], ps), CallsOf(h, mine[1..], own[1..]));
      EpisodeAt(Run(h, Initial(), Feed(mine, own)), ep) == Some(Wrapper(s, stack))
  {
    var heard := script[ep][..k];
    forall ev | ev in EventsOf(heard) ensures EventFor(h, ev, ep) {
      HeardIsPlain(h, mac, script, ep, k);
      EventsAreFor(h, heard, ep, ev);
    }
    AloneExecutes(h, EventsOf(heard), own, ep, ps);
  }

  lemma HeardIsPlain<S, C, R, E>(h: Host<S, C, R, E>, mac: Mac, script: Script, ep: U64, k: nat)
    requires ScriptOk(mac, script) && ScriptFor(h, script) && ep in script && k <= |script[ep]|
    ensures forall m :: m in script[ep][..k] ==> Plain(h, m) && m.episodeId == ep
  {
    forall m | m in script[ep][..k] ensures Plain(h, m) && m.episodeId == ep {
      var n: nat :| n < k && script[ep][n] == m;
      assert m in script[ep];
    }
  }

  /** What larger numbers do. */

  function BlocksFed(events: seq<Event>, times: seq<nat>): (blocks: seq<Block>)
    requires |times| == |events|
    ensures |blocks| == |events| && forall i :: 0 <= i < |events| ==> blocks[i] == BlockOf(events[i], times[i])
  {
    seq(|events|, i requires 0 <= i < |events| => BlockOf(events[i], times[i]))
  }

  lemma {:induction false} FeedIsAccepts(events: seq<Event>, times: seq<nat>)
    requires |times| == |events|
    ensures Feed(events, times) == Accepts(BlocksFed(events, times))
    decreases |events|
  {
    if events != [] {
      var last := |events| - 1;
      FeedIsAccepts(events[..last], times[..last]);
    }
  }

  /** Off chain every episode is created at score 0, the number its opening message must carry, and all
      episodes share one clock, which is anybody's latest number. So an episode is lost exactly when
      some number, its own or another's, exceeds the lifetime at a moment when filtering is due. */
  lemma NumbersPruneIff<S, C, R, E>(
    h: Host<S, C, R, E>, e: State<S, R>, events: seq<Event>, times: seq<nat>, id: EpisodeId)
    requires |times| == |events| && Matched(e) && id in e.episodes && e.creationTimes[id] == 0
    requires forall ev :: ev in events ==> NotCreatedIn(h, [TxOf(ev)], id)
    ensures id in Run(h, e, Feed(events, times)).episodes <==>
            Outlives(0, e.nextFiltering, BlocksFed(events, times))
  {
    var blocks := BlocksFed(events, times);
    FeedIsAccepts(events, times);
    forall b | b in blocks ensures NotCreatedIn(h, b.txs, id) {
      var i :| 0 <= i < |blocks| && blocks[i] == b;
      assert events[i] in events && b.txs == [TxOf(events[i])];
    }
    SurvivesIff(h, e, blocks, id);
  }

  /** In particular one number past the lifetime, and past the clock by more than the sampling interval. */
  lemma OneLargeNumberPrunes<S, C, R, E>(
    h: Host<S, C, R, E>, e: State<S, R>, ev: Event, time: nat, id: EpisodeId)
    requires Matched(e) && id in e.episodes && e.creationTimes[id] == 0 && NotCreatedIn(h, [TxOf(ev)], id)
    ensures id in Run(h, e, Feed([ev], [time])).episodes <==>
            !(ev.daa > e.nextFiltering + SAMPLE_REMOVAL_TIME && ev.daa > EPISODE_LIFETIME)
  {
    NumbersPruneIff(h, e, [ev], [time], id);
    assert BlocksFed([ev], [time])[1..] == [];
  }
}
