/** Episodes do not interfere: what an engine holds of one episode is what an engine that was sent
    only that episode's transactions would hold. */
module EngineSlices {
  import opened Wrappers
  import opened Primitives
  import opened Episodes
  import opened EngineSpec

  function Only<V>(m: map<EpisodeId, V>, id: EpisodeId): map<EpisodeId, V> {
    if id in m then map[id := m[id]] else map[]
  }

  function EntriesOf(entries: seq<Entry>, id: EpisodeId): seq<Entry> {
    if entries == [] then []
    else
      var last := |entries| - 1;
      if entries[last].id == id then EntriesOf(entries[..last], id) + [entries[last]]
      else EntriesOf(entries[..last], id)
  }

  function RevertMapOf(m: map<Hash, seq<Entry>>, id: EpisodeId): map<Hash, seq<Entry>> {
    map hash | hash in m :: EntriesOf(m[hash], id)
  }

  /** All that concerns one episode. Blocks are remembered even when they did nothing to it. */
  function Slice<S, R>(e: State<S, R>, id: EpisodeId): State<S, R> {
    State(Only(e.episodes, id), RevertMapOf(e.revertMap, id), e.nextFiltering, Only(e.creationTimes, id))
  }

  /** Whether a transaction is addressed to the episode. */
  predicate IsFor<S, C, R, E>(h: Host<S, C, R, E>, tx: Tx, id: EpisodeId) {
    h.parse(tx.payload).Some? && h.parse(tx.payload).value.id == id
  }

  function TxsOf<S, C, R, E>(h: Host<S, C, R, E>, txs: seq<Tx>, id: EpisodeId): seq<Tx> {
    if txs == [] then []
    else
      var last := |txs| - 1;
      if IsFor(h, txs[last], id) then TxsOf(h, txs[..last], id) + [txs[last]] else TxsOf(h, txs[..last], id)
  }

  function SliceMsg<S, C, R, E>(h: Host<S, C, R, E>, msg: EngineMsg, id: EpisodeId): EngineMsg {
    if msg.BlkAccepted? then BlkAccepted(msg.block.(txs := TxsOf(h, msg.block.txs, id))) else msg
  }

  function SliceMsgs<S, C, R, E>(h: Host<S, C, R, E>, msgs: seq<EngineMsg>, id: EpisodeId): seq<EngineMsg>
    decreases |msgs|
  {
    if msgs == [] then [] else [SliceMsg(h, msgs[0], id)] + SliceMsgs(h, msgs[1..], id)
  }

  lemma OnlyRemoved<V>(m: map<EpisodeId, V>, gone: set<EpisodeId>, gone': set<EpisodeId>, id: EpisodeId)
    requires id in m ==> (id in gone <==> id in gone')
    ensures Only(m - gone, id) == Only(m, id) - gone'
  {
    assert Only(m - gone, id).Keys == (Only(m, id) - gone').Keys;
  }

  lemma OnlyUpdated<V>(m: map<EpisodeId, V>, at: EpisodeId, v: V, id: EpisodeId)
    ensures Only(m[at := v], id) == if at == id then Only(m, id)[id := v] else Only(m, id)
  {
  }

  lemma SliceFilter<S, R>(e: State<S, R>, daa: nat, id: EpisodeId)
    ensures Slice(Filter(e, daa), id) == Filter(Slice(e, id), daa)
  {
    OnlyRemoved(e.episodes, PrunedBy(e, daa), PrunedBy(Slice(e, id), daa), id);
    OnlyRemoved(e.creationTimes, PrunedBy(e, daa), PrunedBy(Slice(e, id), daa), id);
  }

  lemma SliceCreate<S, C, R, E>(
    h: Host<S, C, R, E>, e: State<S, R>, at: EpisodeId, ps: seq<PubKey>, md: PayloadMetadata, id: EpisodeId)
    ensures
      var (e', entry) := Create(h, e, at, ps, md);
      if at == id then (Slice(e', id), entry) == Create(h, Slice(e, id), id, ps, md) else Slice(e', id) == Slice(e, id)
  {
    OnlyUpdated(e.episodes, at, Wrapper(h.ep.initialize(ps, md), []), id);
    OnlyUpdated(e.creationTimes, at, md.acceptingDaa, id);
  }

  lemma SlicePerform<S, C, R, E>(
    h: Host<S, C, R, E>, e: State<S, R>, at: EpisodeId, cmd: C, auth: Option<PubKey>, md: PayloadMetadata,
    id: EpisodeId)
    ensures
      var (e', entry) := Perform(h, e, at, cmd, auth, md);
      if at == id then (Slice(e', id), entry) == Perform(h, Slice(e, id), id, cmd, auth, md)
      else Slice(e', id) == Slice(e, id)
  {
    if at in e.episodes {
      var w := e.episodes[at];
      var (s', res) := h.ep.execute(w.episode, cmd, auth, md);
      OnlyUpdated(e.episodes, at, Wrapper(s', if res.Ok? then w.stack + [res.value] else w.stack), id);
    }
  }

  /** A transaction for the episode does to its slice what it does to the engine; any other leaves
      the slice alone and is remembered under another id. */
  lemma SliceTx<S, C, R, E>(h: Host<S, C, R, E>, e: State<S, R>, b: Block, tx: Tx, id: EpisodeId)
    ensures
      var (e', entry) := RunTx(h, e, b, tx);
      if IsFor(h, tx, id) then (Slice(e', id), entry) == RunTx(h, Slice(e, id), b, tx)
        && (entry.Some? ==> entry.value.id == id)
      else Slice(e', id) == Slice(e, id) && (entry.Some? ==> entry.value.id != id)
  {
    match h.parse(tx.payload) {
      case Some(NewEpisode(at, ps)) => SliceCreate(h, e, at, ps, MetadataOf(b, tx), id);
      case Some(SignedCommand(at, cmd, pk, sig)) => SlicePerform(h, e, at, cmd, Some(pk), MetadataOf(b, tx), id);
      case Some(UnsignedCommand(at, cmd)) => SlicePerform(h, e, at, cmd, None, MetadataOf(b, tx), id);
      case _ =>
    }
  }

  lemma EntriesOfRemember(entries: seq<Entry>, entry: Option<Entry>, id: EpisodeId)
    ensures EntriesOf(Remember(entries, entry), id) ==
      if entry.Some? && entry.value.id == id then EntriesOf(entries, id) + [entry.value] else EntriesOf(entries, id)
  {
    if entry.Some? {
      assert (entries + [entry.value])[..|entries|] == entries;
    }
  }

  /** Only the block's hash, score and time reach its transactions. */
  lemma SameBlockTx<S, C, R, E>(h: Host<S, C, R, E>, e: State<S, R>, b: Block, b': Block, tx: Tx)
    requires b' == b.(txs := b'.txs)
    ensures RunTx(h, e, b', tx) == RunTx(h, e, b, tx)
  {
    assert MetadataOf(b', tx) == MetadataOf(b, tx);
  }

  lemma {:induction false} SliceTxs<S, C, R, E>(h: Host<S, C, R, E>, e: State<S, R>, b: Block, b': Block,
                                                txs: seq<Tx>, id: EpisodeId)
    requires b' == b.(txs := b'.txs)
    ensures
      var (e', entries) := RunTxs(h, e, b, txs);
      (Slice(e', id), EntriesOf(entries, id)) == RunTxs(h, Slice(e, id), b', TxsOf(h, txs, id))
    decreases |txs|
  {
    if txs != [] {
      var shorter, tx := txs[..|txs| - 1], txs[|txs| - 1];
      SliceTxs(h, e, b, b', shorter, id);
      var (e1, entries) := RunTxs(h, e, b, shorter);
      var entry := RunTx(h, e1, b, tx).1;
      SliceTx(h, e1, b, tx, id);
      EntriesOfRemember(entries, entry, id);
      SameBlockTx(h, Slice(e1, id), b, b', tx);
      RunTxsPush(h, Slice(e, id), b', TxsOf(h, shorter, id), tx);
    }
  }

  lemma SliceRevertOne<S, C, R, E>(h: Host<S, C, R, E>, e: State<S, R>, at: EpisodeId, id: EpisodeId)
    ensures Slice(RevertOne(h, e, at), id) == if at == id then RevertOne(h, Slice(e, id), id) else Slice(e, id)
  {
  }

  lemma {:induction false} SliceRevertEntries<S, C, R, E>(h: Host<S, C, R, E>, e: State<S, R>, entries: seq<Entry>,
                                                          id: EpisodeId)
    ensures Slice(RevertEntries(h, e, entries), id) == RevertEntries(h, Slice(e, id), EntriesOf(entries, id))
    decreases |entries|
  {
    if entries != [] {
      var last := |entries| - 1;
      SliceRevertOne(h, e, entries[last].id, id);
      SliceRevertEntries(h, RevertOne(h, e, entries[last].id), entries[..last], id);
      var mine := EntriesOf(entries[..last], id);
      assert (mine + [entries[last]])[..|mine|] == mine;
    }
  }

  lemma RevertMapUpdated(m: map<Hash, seq<Entry>>, hash: Hash, entries: seq<Entry>, id: EpisodeId)
    ensures RevertMapOf(m[hash := entries], id) == RevertMapOf(m, id)[hash := EntriesOf(entries, id)]
  {
  }

  lemma RevertMapRemoved(m: map<Hash, seq<Entry>>, hash: Hash, id: EpisodeId)
    ensures RevertMapOf(m - {hash}, id) == RevertMapOf(m, id) - {hash}
  {
  }

  lemma SliceAccept<S, C, R, E>(h: Host<S, C, R, E>, e: State<S, R>, b: Block, id: EpisodeId)
    ensures Slice(AcceptBlock(h, e, b), id) == AcceptBlock(h, Slice(e, id), b.(txs := TxsOf(h, b.txs, id)))
  {
    var e0 := Filter(e, b.daa);
    SliceFilter(e, b.daa, id);
    SliceTxs(h, e0, b, b.(txs := TxsOf(h, b.txs, id)), b.txs, id);
    var (e1, entries) := RunTxs(h, e0, b, b.txs);
    RevertMapUpdated(e1.revertMap, b.hash, entries, id);
  }

  lemma SliceRevert<S, C, R, E>(h: Host<S, C, R, E>, e: State<S, R>, hash: Hash, id: EpisodeId)
    ensures Slice(RevertBlock(h, e, hash), id) == RevertBlock(h, Slice(e, id), hash)
  {
    if hash in e.revertMap {
      RevertMapRemoved(e.revertMap, hash, id);
      SliceRevertEntries(h, e.(revertMap := e.revertMap - {hash}), e.revertMap[hash], id);
    }
  }

  /** Whatever is accepted, pruned and reverted, and in whatever order: an episode of an engine is
      at every moment what it would be in an engine of its own. */
  lemma {:induction false} EpisodesDoNotInterfere<S, C, R, E>(
    h: Host<S, C, R, E>, e: State<S, R>, msgs: seq<EngineMsg>, id: EpisodeId)
    ensures Slice(Run(h, e, msgs), id) == Run(h, Slice(e, id), SliceMsgs(h, msgs, id))
    decreases |msgs|
  {
    if msgs == [] || msgs[0].Exit? {
    } else {
      var mine := SliceMsgs(h, msgs, id);
      assert mine[0] == SliceMsg(h, msgs[0], id) && mine[1..] == SliceMsgs(h, msgs[1..], id);
      match msgs[0] {
        case BlkAccepted(b) => SliceAccept(h, e, b, id);
        case BlkReverted(hash) => SliceRevert(h, e, hash, id);
      }
      EpisodesDoNotInterfere(h, Step(h, e, msgs[0]), msgs[1..], id);
    }
  }
}
