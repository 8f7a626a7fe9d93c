/** What the engine (kdapp/src/engine.rs) computes, as functions of its state. */
module EngineSpec {
  import opened Wrappers
  import opened Primitives
  import opened Episodes

  type EpisodeId = nat
  type Sig = seq<Byte>

  const EPISODE_LIFETIME: nat := 2592000
  const SAMPLE_REMOVAL_TIME: nat := 432000

  datatype EpisodeMessage<+C> =
    | NewEpisode(id: EpisodeId, participants: seq<PubKey>)
    | SignedCommand(id: EpisodeId, cmd: C, pubkey: PubKey, sig: Sig)
    | UnsignedCommand(id: EpisodeId, cmd: C)
    | Revert(id: EpisodeId)

  /** An episode implementation with the borsh parser and the signature check it is run under. */
  datatype Host<!S, !C, !R, !E> = Host(
    ep: Episode<S, C, R, E>,
    parse: seq<Byte> -> Option<EpisodeMessage<C>>,
    verify: (PubKey, C, Sig) -> bool)

  datatype Tx = Tx(id: Hash, payload: seq<Byte>, outputs: Option<seq<TxOutputInfo>>)
  datatype Block = Block(hash: Hash, daa: nat, time: nat, txs: seq<Tx>)
  datatype EngineMsg = BlkAccepted(block: Block) | BlkReverted(hash: Hash) | Exit

  datatype Entry = Entry(id: EpisodeId, md: PayloadMetadata)
  datatype Wrapper<S, R> = Wrapper(episode: S, stack: seq<R>)
  datatype State<S, R> = State(
    episodes: map<EpisodeId, Wrapper<S, R>>,
    revertMap: map<Hash, seq<Entry>>,
    nextFiltering: nat,
    creationTimes: map<EpisodeId, nat>)

  function Initial<S, R>(): State<S, R> {
    State(map[], map[], 0, map[])
  }

  function MetadataOf(b: Block, tx: Tx): PayloadMetadata {
    PayloadMetadata(b.hash, b.daa, b.time, tx.id, tx.outputs)
  }

  /** Age-based filtering. */

  predicate Fires(nextFiltering: nat, daa: nat) {
    daa > nextFiltering + SAMPLE_REMOVAL_TIME
  }

  predicate TooOld(creation: nat, daa: nat) {
    creation < (if daa >= EPISODE_LIFETIME then daa - EPISODE_LIFETIME else 0)
  }

  function PrunedBy<S, R>(e: State<S, R>, daa: nat): set<EpisodeId> {
    if Fires(e.nextFiltering, daa)
    then set id | id in e.creationTimes && TooOld(e.creationTimes[id], daa)
    else {}
  }

  function NextFiltering(nextFiltering: nat, daa: nat): nat {
    if Fires(nextFiltering, daa) then daa else nextFiltering
  }

  /** The engine without the episodes in `gone`, and with its filtering clock at `clock`. */
  function Aged<S, R>(e: State<S, R>, gone: set<EpisodeId>, clock: nat): State<S, R> {
    e.(episodes := e.episodes - gone, creationTimes := e.creationTimes - gone, nextFiltering := clock)
  }

  function Filter<S, R>(e: State<S, R>, daa: nat): State<S, R> {
    Aged(e, PrunedBy(e, daa), NextFiltering(e.nextFiltering, daa))
  }

  /** Handling one message; the result says which entry the block must remember. */

  function Create<S, C, R, E>(
    h: Host<S, C, R, E>, e: State<S, R>, id: EpisodeId, ps: seq<PubKey>, md: PayloadMetadata)
    : (State<S, R>, Option<Entry>)
  {
    if id in e.episodes then (e, None)
    else
      (e.(episodes := e.episodes[id := Wrapper(h.ep.initialize(ps, md), [])],
          creationTimes := e.creationTimes[id := md.acceptingDaa]),
       Some(Entry(id, md)))
  }

  function Perform<S, C, R, E>(
    h: Host<S, C, R, E>, e: State<S, R>, id: EpisodeId, cmd: C, auth: Option<PubKey>, md: PayloadMetadata)
    : (State<S, R>, Option<Entry>)
  {
    if id !in e.episodes then (e, None)
    else
      var w := e.episodes[id];
      match h.ep.execute(w.episode, cmd, auth, md)
      case (s', Ok(r)) => (e.(episodes := e.episodes[id := Wrapper(s', w.stack + [r])]), Some(Entry(id, md)))
      case (s', Err(_)) => (e.(episodes := e.episodes[id := Wrapper(s', w.stack)]), None)
  }

  /** Undoes the newest command of an episode, or its creation when there is none left. */
  function RevertOne<S, C, R, E>(h: Host<S, C, R, E>, e: State<S, R>, id: EpisodeId): State<S, R> {
    if id !in e.episodes then e
    else
      var w := e.episodes[id];
      if w.stack == [] then e.(episodes := e.episodes - {id}, creationTimes := e.creationTimes - {id})
      else
        var last := |w.stack| - 1;
        e.(episodes := e.episodes[id := Wrapper(h.ep.rollback(w.episode, w.stack[last]).0, w.stack[..last])])
  }

  function Handle<S, C, R, E>(h: Host<S, C, R, E>, e: State<S, R>, msg: EpisodeMessage<C>, md: PayloadMetadata)
    : (State<S, R>, Option<Entry>)
  {
    match msg
    case NewEpisode(id, ps) => Create(h, e, id, ps, md)
    case SignedCommand(id, cmd, pk, sig) =>
      if id in e.episodes && h.verify(pk, cmd, sig) then Perform(h, e, id, cmd, Some(pk), md) else (e, None)
    case UnsignedCommand(id, cmd) => Perform(h, e, id, cmd, None, md)
    case Revert(id) => (RevertOne(h, e, id), None)
  }

  /** One carrier transaction: unparsable payloads and reverts smuggled in as payloads are skipped. */
  function RunTx<S, C, R, E>(h: Host<S, C, R, E>, e: State<S, R>, b: Block, tx: Tx): (State<S, R>, Option<Entry>) {
    match h.parse(tx.payload)
    case None => (e, None)
    case Some(msg) => if msg.Revert? then (e, None) else Handle(h, e, msg, MetadataOf(b, tx))
  }

  function Remember(entries: seq<Entry>, entry: Option<Entry>): seq<Entry> {
    if entry.Some? then entries + [entry.value] else entries
  }

  function RunTxs<S, C, R, E>(h: Host<S, C, R, E>, e: State<S, R>, b: Block, txs: seq<Tx>): (State<S, R>, seq<Entry>)
    decreases |txs|
  {
    if txs == [] then (e, [])
    else
      var (e1, entries) := RunTxs(h, e, b, txs[..|txs| - 1]);
      var (e2, entry) := RunTx(h, e1, b, txs[|txs| - 1]);
      (e2, Remember(entries, entry))
  }

  lemma RunTxsPush<S, C, R, E>(h: Host<S, C, R, E>, e: State<S, R>, b: Block, txs: seq<Tx>, tx: Tx)
    ensures
      var (e1, entries) := RunTxs(h, e, b, txs);
      var (e2, entry) := RunTx(h, e1, b, tx);
      RunTxs(h, e, b, txs + [tx]) == (e2, Remember(entries, entry))
  {
    assert (txs + [tx])[..|txs|] == txs;
  }

  lemma RunTxsNext<S, C, R, E>(h: Host<S, C, R, E>, e: State<S, R>, b: Block, i: nat)
    requires i < |b.txs|
    ensures
      var (e1, entries) := RunTxs(h, e, b, b.txs[..i]);
      var (e2, entry) := RunTx(h, e1, b, b.txs[i]);
      RunTxs(h, e, b, b.txs[..i + 1]) == (e2, Remember(entries, entry))
  {
    assert b.txs[..i + 1] == b.txs[..i] + [b.txs[i]];
    RunTxsPush(h, e, b, b.txs[..i], b.txs[i]);
  }

  function AcceptBlock<S, C, R, E>(h: Host<S, C, R, E>, e: State<S, R>, b: Block): State<S, R> {
    var (e1, entries) := RunTxs(h, Filter(e, b.daa), b, b.txs);
    e1.(revertMap := e1.revertMap[b.hash := entries])
  }

  function RevertEntries<S, C, R, E>(h: Host<S, C, R, E>, e: State<S, R>, entries: seq<Entry>): State<S, R>
    decreases |entries|
  {
    if entries == [] then e
    else
      var last := |entries| - 1;
      RevertEntries(h, RevertOne(h, e, entries[last].id), entries[..last])
  }

  function RevertBlock<S, C, R, E>(h: Host<S, C, R, E>, e: State<S, R>, hash: Hash): State<S, R> {
    if hash !in e.revertMap then e
    else RevertEntries(h, e.(revertMap := e.revertMap - {hash}), e.revertMap[hash])
  }

  function Step<S, C, R, E>(h: Host<S, C, R, E>, e: State<S, R>, msg: EngineMsg): State<S, R>
    requires !msg.Exit?
  {
    match msg
    case BlkAccepted(b) => AcceptBlock(h, e, b)
    case BlkReverted(hash) => RevertBlock(h, e, hash)
  }

  /** The message loop, over the messages its channel delivers. */
  function Run<S, C, R, E>(h: Host<S, C, R, E>, e: State<S, R>, msgs: seq<EngineMsg>): State<S, R>
    decreases |msgs|
  {
    if msgs == [] || msgs[0].Exit? then e else Run(h, Step(h, e, msgs[0]), msgs[1..])
  }

  lemma {:induction false} RunConcat<S, C, R, E>(
    h: Host<S, C, R, E>, e: State<S, R>, first: seq<EngineMsg>, second: seq<EngineMsg>)
    requires Exit !in first
    ensures Run(h, e, first + second) == Run(h, Run(h, e, first), second)
    decreases |first|
  {
    if first == [] {
      assert first + second == second;
    } else {
      assert (first + second)[1..] == first[1..] + second;
      RunConcat(h, Step(h, e, first[0]), first[1..], second);
    }
  }
}
