/** Reorg transparency: what accepting a fork and reverting it leaves behind. */
module EngineReorg {
  import opened Wrappers
  import opened Primitives
  import opened Episodes
  import opened EngineSpec

  /** Two engines agree, up to the episodes' own notion of sameness. */
  ghost predicate SameState<S, R>(k: Contract<S>, e: State<S, R>, f: State<S, R>) {
    && e.episodes.Keys == f.episodes.Keys
    && (forall id :: id in e.episodes ==>
          k.same(e.episodes[id].episode, f.episodes[id].episode) && e.episodes[id].stack == f.episodes[id].stack)
    && e.revertMap == f.revertMap
    && e.nextFiltering == f.nextFiltering
    && e.creationTimes == f.creationTimes
  }

  /** Every live episode can be rolled back to its creation, and ids and creation times match. */
  ghost predicate Sound<S, C, R, E>(h: Host<S, C, R, E>, k: Contract<S>, e: State<S, R>) {
    && e.episodes.Keys == e.creationTimes.Keys
    && forall id :: id in e.episodes ==> Undoable(h.ep, k, e.episodes[id].episode, e.episodes[id].stack)
  }

  /** The block only creates episodes with participants the contract covers. */
  ghost predicate AdmissibleTx<S, C, R, E>(h: Host<S, C, R, E>, k: Contract<S>, tx: Tx) {
    match h.parse(tx.payload)
    case Some(NewEpisode(_, ps)) => k.admits(ps)
    case _ => true
  }

  ghost predicate AdmissibleTxs<S, C, R, E>(h: Host<S, C, R, E>, k: Contract<S>, txs: seq<Tx>) {
    forall tx :: tx in txs ==> AdmissibleTx(h, k, tx)
  }

  ghost predicate AdmissibleMsgs<S, C, R, E>(h: Host<S, C, R, E>, k: Contract<S>, msgs: seq<EngineMsg>) {
    forall m :: m in msgs && m.BlkAccepted? ==> AdmissibleTxs(h, k, m.block.txs)
  }

  lemma SameStateReflexive<S(!new), R>(k: Contract<S>, e: State<S, R>)
    requires Equivalence(k)
    ensures SameState(k, e, e)
  {
  }

  lemma SameStateTransitive<S(!new), R>(k: Contract<S>, e: State<S, R>, f: State<S, R>, g: State<S, R>)
    requires Equivalence(k) && SameState(k, e, f) && SameState(k, f, g)
    ensures SameState(k, e, g)
  {
  }

  /** Soundness is an invariant of every run, whatever the order of the reverts. */

  lemma RevertOneSound<S(!new), C(!new), R(!new), E(!new)>(
    h: Host<S, C, R, E>, k: Contract<S>, e: State<S, R>, id: EpisodeId)
    requires Sound(h, k, e)
    ensures Sound(h, k, RevertOne(h, e, id))
  {
  }

  lemma RunTxSound<S(!new), C(!new), R(!new), E(!new)>(
    h: Host<S, C, R, E>, k: Contract<S>, e: State<S, R>, b: Block, tx: Tx)
    requires Undoes(h.ep, k) && Sound(h, k, e) && AdmissibleTx(h, k, tx)
    ensures Sound(h, k, RunTx(h, e, b, tx).0)
  {
    match h.parse(tx.payload) {
      case Some(SignedCommand(id, cmd, pk, sig)) =>
        PerformSound(h, k, e, id, cmd, Some(pk), MetadataOf(b, tx));
      case Some(UnsignedCommand(id, cmd)) =>
        PerformSound(h, k, e, id, cmd, None, MetadataOf(b, tx));
      case Some(NewEpisode(id, ps)) =>
        assert k.inv(h.ep.initialize(ps, MetadataOf(b, tx)));
      case _ =>
    }
  }

  lemma PerformSound<S(!new), C(!new), R(!new), E(!new)>(
    h: Host<S, C, R, E>, k: Contract<S>, e: State<S, R>, id: EpisodeId, cmd: C, auth: Option<PubKey>,
    md: PayloadMetadata)
    requires Undoes(h.ep, k) && Sound(h, k, e)
    ensures Sound(h, k, Perform(h, e, id, cmd, auth, md).0)
    ensures Perform(h, e, id, cmd, auth, md).1.None? ==> Perform(h, e, id, cmd, auth, md).0 == e
  {
    if id in e.episodes {
      var w := e.episodes[id];
      assert ExecuteLaw(h.ep, k, w.episode, cmd, auth, md);
      var (s', res) := h.ep.execute(w.episode, cmd, auth, md);
      if res.Ok? {
        UndoablePush(h.ep, k, w.episode, w.stack, cmd, auth, md);
      } else {
        assert e.episodes[id := w] == e.episodes;
      }
    }
  }

  lemma {:induction false} RunTxsSound<S(!new), C(!new), R(!new), E(!new)>(
    h: Host<S, C, R, E>, k: Contract<S>, e: State<S, R>, b: Block, txs: seq<Tx>)
    requires Undoes(h.ep, k) && Sound(h, k, e) && AdmissibleTxs(h, k, txs)
    ensures Sound(h, k, RunTxs(h, e, b, txs).0)
    ensures RunTxs(h, e, b, txs).0.revertMap == e.revertMap
    ensures RunTxs(h, e, b, txs).0.nextFiltering == e.nextFiltering
    decreases |txs|
  {
    if txs != [] {
      RunTxsSound(h, k, e, b, txs[..|txs| - 1]);
      RunTxSound(h, k, RunTxs(h, e, b, txs[..|txs| - 1]).0, b, txs[|txs| - 1]);
    }
  }

  lemma {:induction false} RevertEntriesSound<S(!new), C(!new), R(!new), E(!new)>(
    h: Host<S, C, R, E>, k: Contract<S>, e: State<S, R>, entries: seq<Entry>)
    requires Sound(h, k, e)
    ensures Sound(h, k, RevertEntries(h, e, entries))
    ensures RevertEntries(h, e, entries).revertMap == e.revertMap
    ensures RevertEntries(h, e, entries).nextFiltering == e.nextFiltering
    decreases |entries|
  {
    if entries != [] {
      var last := |entries| - 1;
      RevertOneSound(h, k, e, entries[last].id);
      RevertEntriesSound(h, k, RevertOne(h, e, entries[last].id), entries[..last]);
    }
  }

  lemma StepSound<S(!new), C(!new), R(!new), E(!new)>(
    h: Host<S, C, R, E>, k: Contract<S>, e: State<S, R>, msg: EngineMsg)
    requires Undoes(h.ep, k) && Sound(h, k, e) && AdmissibleMsgs(h, k, [msg]) && !msg.Exit?
    ensures Sound(h, k, Step(h, e, msg))
  {
    match msg {
      case BlkAccepted(b) =>
        assert msg in [msg];
        RunTxsSound(h, k, Filter(e, b.daa), b, b.txs);
      case BlkReverted(hash) =>
        if hash in e.revertMap {
          RevertEntriesSound(h, k, e.(revertMap := e.revertMap - {hash}), e.revertMap[hash]);
        }
    }
  }

  /** In every run, ids and creation times agree and every pending rollback would succeed: the
      "severe bug" branch of the wrapper's rollback is dead code. */
  lemma {:induction false} RunSound<S(!new), C(!new), R(!new), E(!new)>(
    h: Host<S, C, R, E>, k: Contract<S>, e: State<S, R>, msgs: seq<EngineMsg>)
    requires Undoes(h.ep, k) && Sound(h, k, e) && AdmissibleMsgs(h, k, msgs)
    ensures Sound(h, k, Run(h, e, msgs))
    decreases |msgs|
  {
    if msgs == [] || msgs[0].Exit? {
    } else {
      StepSound(h, k, e, msgs[0]);
      RunSound(h, k, Step(h, e, msgs[0]), msgs[1..]);
    }
  }

  /** Every operation respects sameness. */

  lemma RevertOneRespects<S(!new), C(!new), R(!new), E(!new)>(
    h: Host<S, C, R, E>, k: Contract<S>, e: State<S, R>, f: State<S, R>, id: EpisodeId)
    requires SameState(k, e, f)
    requires id in e.episodes && e.episodes[id].stack != [] ==>
      var w := e.episodes[id];
      RollbackRespects(h.ep, k, w.episode, f.episodes[id].episode, w.stack[|w.stack| - 1])
    ensures SameState(k, RevertOne(h, e, id), RevertOne(h, f, id))
  {
  }

  lemma StackTopRespects<S(!new), C(!new), R(!new), E(!new)>(
    h: Host<S, C, R, E>, k: Contract<S>, e: State<S, R>, f: State<S, R>, id: EpisodeId)
    requires Undoes(h.ep, k) && Sound(h, k, e) && SameState(k, e, f)
    ensures id in e.episodes && e.episodes[id].stack != [] ==>
      var w := e.episodes[id];
      RollbackRespects(h.ep, k, w.episode, f.episodes[id].episode, w.stack[|w.stack| - 1])
  {
    if id in e.episodes && e.episodes[id].stack != [] {
      assert k.inv(e.episodes[id].episode);
    }
  }

  lemma {:induction false} RevertEntriesRespects<S(!new), C(!new), R(!new), E(!new)>(
    h: Host<S, C, R, E>, k: Contract<S>, e: State<S, R>, f: State<S, R>, entries: seq<Entry>)
    requires Undoes(h.ep, k) && Sound(h, k, e) && SameState(k, e, f)
    ensures SameState(k, RevertEntries(h, e, entries), RevertEntries(h, f, entries))
    decreases |entries|
  {
    if entries != [] {
      var last := |entries| - 1;
      StackTopRespects(h, k, e, f, entries[last].id);
      RevertOneRespects(h, k, e, f, entries[last].id);
      RevertOneSound(h, k, e, entries[last].id);
      RevertEntriesRespects(h, k, RevertOne(h, e, entries[last].id), RevertOne(h, f, entries[last].id),
                            entries[..last]);
    }
  }

  lemma PerformRespects<S(!new), C(!new), R(!new), E(!new)>(
    h: Host<S, C, R, E>, k: Contract<S>, e: State<S, R>, f: State<S, R>,
    id: EpisodeId, cmd: C, auth: Option<PubKey>, md: PayloadMetadata)
    requires SameState(k, e, f)
    requires id in e.episodes
      ==> ExecuteRespects(h.ep, k, e.episodes[id].episode, f.episodes[id].episode, cmd, auth, md)
    ensures SameState(k, Perform(h, e, id, cmd, auth, md).0, Perform(h, f, id, cmd, auth, md).0)
    ensures Perform(h, e, id, cmd, auth, md).1 == Perform(h, f, id, cmd, auth, md).1
  {
  }

  lemma RunTxRespects<S(!new), C(!new), R(!new), E(!new)>(
    h: Host<S, C, R, E>, k: Contract<S>, e: State<S, R>, f: State<S, R>, b: Block, tx: Tx)
    requires Undoes(h.ep, k) && Sound(h, k, e) && SameState(k, e, f)
    ensures SameState(k, RunTx(h, e, b, tx).0, RunTx(h, f, b, tx).0)
    ensures RunTx(h, e, b, tx).1 == RunTx(h, f, b, tx).1
  {
    match h.parse(tx.payload) {
      case Some(SignedCommand(id, cmd, pk, sig)) =>
        assert id in e.episodes ==>
          ExecuteRespects(h.ep, k, e.episodes[id].episode, f.episodes[id].episode, cmd, Some(pk), MetadataOf(b, tx));
        PerformRespects(h, k, e, f, id, cmd, Some(pk), MetadataOf(b, tx));
      case Some(UnsignedCommand(id, cmd)) =>
        assert id in e.episodes ==>
          ExecuteRespects(h.ep, k, e.episodes[id].episode, f.episodes[id].episode, cmd, None, MetadataOf(b, tx));
        PerformRespects(h, k, e, f, id, cmd, None, MetadataOf(b, tx));
      case _ =>
    }
  }

  lemma {:induction false} RunTxsRespects<S(!new), C(!new), R(!new), E(!new)>(
    h: Host<S, C, R, E>, k: Contract<S>, e: State<S, R>, f: State<S, R>, b: Block, txs: seq<Tx>)
    requires Undoes(h.ep, k) && Sound(h, k, e) && SameState(k, e, f) && AdmissibleTxs(h, k, txs)
    ensures SameState(k, RunTxs(h, e, b, txs).0, RunTxs(h, f, b, txs).0)
    ensures RunTxs(h, e, b, txs).1 == RunTxs(h, f, b, txs).1
    decreases |txs|
  {
    if txs != [] {
      var shorter := txs[..|txs| - 1];
      RunTxsRespects(h, k, e, f, b, shorter);
      RunTxsSound(h, k, e, b, shorter);
      RunTxRespects(h, k, RunTxs(h, e, b, shorter).0, RunTxs(h, f, b, shorter).0, b, txs[|txs| - 1]);
    }
  }

  lemma StepRespects<S(!new), C(!new), R(!new), E(!new)>(
    h: Host<S, C, R, E>, k: Contract<S>, e: State<S, R>, f: State<S, R>, msg: EngineMsg)
    requires Undoes(h.ep, k) && Sound(h, k, e) && SameState(k, e, f) && AdmissibleMsgs(h, k, [msg]) && !msg.Exit?
    ensures SameState(k, Step(h, e, msg), Step(h, f, msg))
  {
    match msg {
      case BlkAccepted(b) =>
        assert msg in [msg];
        RunTxsRespects(h, k, Filter(e, b.daa), Filter(f, b.daa), b, b.txs);
      case BlkReverted(hash) =>
        if hash in e.revertMap {
          RevertEntriesRespects(h, k, e.(revertMap := e.revertMap - {hash}), f.(revertMap := f.revertMap - {hash}),
                                e.revertMap[hash]);
        }
    }
  }

  lemma {:induction false} RunRespects<S(!new), C(!new), R(!new), E(!new)>(
    h: Host<S, C, R, E>, k: Contract<S>, e: State<S, R>, f: State<S, R>, msgs: seq<EngineMsg>)
    requires Undoes(h.ep, k) && Sound(h, k, e) && SameState(k, e, f) && AdmissibleMsgs(h, k, msgs)
    ensures SameState(k, Run(h, e, msgs), Run(h, f, msgs))
    decreases |msgs|
  {
    if msgs == [] || msgs[0].Exit? {
    } else {
      StepSound(h, k, e, msgs[0]);
      StepRespects(h, k, e, f, msgs[0]);
      RunRespects(h, k, Step(h, e, msgs[0]), Step(h, f, msgs[0]), msgs[1..]);
    }
  }

  /** Reverting what a transaction, a block and then a whole fork did. */

  lemma TxThenRevert<S(!new), C(!new), R(!new), E(!new)>(
    h: Host<S, C, R, E>, k: Contract<S>, e: State<S, R>, b: Block, tx: Tx)
    requires Undoes(h.ep, k) && Sound(h, k, e)
    ensures
      var (e', entry) := RunTx(h, e, b, tx);
      match entry
      case None => e' == e
      case Some(en) => SameState(k, RevertOne(h, e', en.id), e)
  {
    match h.parse(tx.payload) {
      case Some(NewEpisode(id, ps)) =>
        if id !in e.episodes {
          var w := Wrapper(h.ep.initialize(ps, MetadataOf(b, tx)), []);
          assert e.episodes[id := w] - {id} == e.episodes;
          assert e.creationTimes[id := b.daa] - {id} == e.creationTimes;
        }
      case Some(SignedCommand(id, cmd, pk, sig)) =>
        assert id in e.episodes ==> ExecuteLaw(h.ep, k, e.episodes[id].episode, cmd, Some(pk), MetadataOf(b, tx));
        PerformThenRevert(h, k, e, id, cmd, Some(pk), MetadataOf(b, tx));
      case Some(UnsignedCommand(id, cmd)) =>
        assert id in e.episodes ==> ExecuteLaw(h.ep, k, e.episodes[id].episode, cmd, None, MetadataOf(b, tx));
        PerformThenRevert(h, k, e, id, cmd, None, MetadataOf(b, tx));
      case _ =>
    }
  }

  ghost predicate Reflexive<S(!new)>(k: Contract<S>) {
    forall s :: k.same(s, s)
  }

  lemma PerformThenRevert<S(!new), C(!new), R(!new), E(!new)>(
    h: Host<S, C, R, E>, k: Contract<S>, e: State<S, R>, id: EpisodeId, cmd: C, auth: Option<PubKey>,
    md: PayloadMetadata)
    requires Reflexive(k) && (id in e.episodes ==> ExecuteLaw(h.ep, k, e.episodes[id].episode, cmd, auth, md))
    ensures
      var (e', entry) := Perform(h, e, id, cmd, auth, md);
      match entry
      case None => e' == e
      case Some(en) => SameState(k, RevertOne(h, e', en.id), e)
  {
    if id in e.episodes {
      var w := e.episodes[id];
      var (s', res) := h.ep.execute(w.episode, cmd, auth, md);
      if res.Ok? {
        assert (w.stack + [res.value])[..|w.stack|] == w.stack;
      } else {
        assert e.episodes[id := w] == e.episodes;
      }
    }
  }

  lemma {:induction false} TxsThenRevert<S(!new), C(!new), R(!new), E(!new)>(
    h: Host<S, C, R, E>, k: Contract<S>, e: State<S, R>, b: Block, txs: seq<Tx>)
    requires Undoes(h.ep, k) && Sound(h, k, e) && AdmissibleTxs(h, k, txs)
    ensures
      var (e', entries) := RunTxs(h, e, b, txs);
      SameState(k, RevertEntries(h, e', entries), e)
    decreases |txs|
  {
    if txs == [] {
    } else {
      var shorter := txs[..|txs| - 1];
      var (e1, entries) := RunTxs(h, e, b, shorter);
      RunTxsSound(h, k, e, b, shorter);
      TxsThenRevert(h, k, e, b, shorter);
      TxThenRevert(h, k, e1, b, txs[|txs| - 1]);
      RunTxSound(h, k, e1, b, txs[|txs| - 1]);
      var (e2, entry) := RunTx(h, e1, b, txs[|txs| - 1]);
      if entry.Some? {
        assert (entries + [entry.value])[..|entries|] == entries;
        var back := RevertOne(h, e2, entry.value.id);
        RevertOneSound(h, k, e2, entry.value.id);
        RevertEntriesRespects(h, k, back, e1, entries);
        SameStateTransitive(k, RevertEntries(h, back, entries), RevertEntries(h, e1, entries), e);
      }
    }
  }

  lemma {:induction false} RevertEntriesIgnoresMap<S, C, R, E>(
    h: Host<S, C, R, E>, e: State<S, R>, m: map<Hash, seq<Entry>>, entries: seq<Entry>)
    ensures RevertEntries(h, e.(revertMap := m), entries) == RevertEntries(h, e, entries).(revertMap := m)
    decreases |entries|
  {
    if entries != [] {
      var last := |entries| - 1;
      assert RevertOne(h, e.(revertMap := m), entries[last].id) == RevertOne(h, e, entries[last].id).(revertMap := m);
      RevertEntriesIgnoresMap(h, RevertOne(h, e, entries[last].id), m, entries[..last]);
    }
  }

  /** Reverting a block undoes everything except the filtering it started with. */
  lemma BlockThenRevert<S(!new), C(!new), R(!new), E(!new)>(
    h: Host<S, C, R, E>, k: Contract<S>, e: State<S, R>, b: Block)
    requires Undoes(h.ep, k) && Sound(h, k, e) && AdmissibleTxs(h, k, b.txs)
    requires b.hash !in e.revertMap
    ensures SameState(k, RevertBlock(h, AcceptBlock(h, e, b), b.hash), Filter(e, b.daa))
  {
    var e0 := Filter(e, b.daa);
    var (e1, entries) := RunTxs(h, e0, b, b.txs);
    RunTxsSound(h, k, e0, b, b.txs);
    TxsThenRevert(h, k, e0, b, b.txs);
    var accepted := AcceptBlock(h, e, b);
    assert accepted.revertMap - {b.hash} == e.revertMap;
    assert accepted.(revertMap := e.revertMap) == e1;
  }

  lemma {:induction false} AgedRevertEntries<S, C, R, E>(
    h: Host<S, C, R, E>, e: State<S, R>, gone: set<EpisodeId>, clock: nat, entries: seq<Entry>)
    ensures RevertEntries(h, Aged(e, gone, clock), entries) == Aged(RevertEntries(h, e, entries), gone, clock)
    decreases |entries|
  {
    if entries != [] {
      var last := |entries| - 1;
      AgedRevertOne(h, e, gone, clock, entries[last].id);
      AgedRevertEntries(h, RevertOne(h, e, entries[last].id), gone, clock, entries[..last]);
    }
  }

  lemma RemoveFromUpdated<V>(m: map<EpisodeId, V>, gone: set<EpisodeId>, id: EpisodeId, v: V)
    ensures m[id := v] - gone == if id in gone then m - gone else (m - gone)[id := v]
  {
    var left, right := m[id := v] - gone, if id in gone then m - gone else (m - gone)[id := v];
    assert left.Keys == right.Keys;
  }

  lemma RemoveTwice<V>(m: map<EpisodeId, V>, gone: set<EpisodeId>, id: EpisodeId)
    ensures m - {id} - gone == m - gone - {id}
    ensures id in gone ==> m - {id} - gone == m - gone
  {
    assert (m - {id} - gone).Keys == (m - gone - {id}).Keys;
  }

  lemma AgedRevertOne<S, C, R, E>(
    h: Host<S, C, R, E>, e: State<S, R>, gone: set<EpisodeId>, clock: nat, id: EpisodeId)
    ensures RevertOne(h, Aged(e, gone, clock), id) == Aged(RevertOne(h, e, id), gone, clock)
  {
    if id in e.episodes {
      var w := e.episodes[id];
      if w.stack == [] {
        RemoveTwice(e.episodes, gone, id);
        RemoveTwice(e.creationTimes, gone, id);
      } else {
        var last := |w.stack| - 1;
        RemoveFromUpdated(e.episodes, gone, id, Wrapper(h.ep.rollback(w.episode, w.stack[last]).0, w.stack[..last]));
      }
    }
  }

  /** Pruning commutes with reverting: the entries of a pruned episode find nothing to undo. */
  lemma AgedRevertBlock<S, C, R, E>(
    h: Host<S, C, R, E>, e: State<S, R>, gone: set<EpisodeId>, clock: nat, hash: Hash)
    ensures RevertBlock(h, Aged(e, gone, clock), hash) == Aged(RevertBlock(h, e, hash), gone, clock)
  {
    if hash in e.revertMap {
      var m := e.revertMap - {hash};
      assert Aged(e, gone, clock).(revertMap := m) == Aged(e.(revertMap := m), gone, clock);
      AgedRevertEntries(h, e.(revertMap := m), gone, clock, e.revertMap[hash]);
    }
  }

  lemma AgedTwice<S, R>(e: State<S, R>, gone: set<EpisodeId>, clock: nat, gone': set<EpisodeId>, clock': nat)
    ensures Aged(Aged(e, gone, clock), gone', clock') == Aged(e, gone + gone', clock')
  {
    var left, right := Aged(Aged(e, gone, clock), gone', clock'), Aged(e, gone + gone', clock');
    assert left.episodes == right.episodes;
    assert left.creationTimes == right.creationTimes;
  }

  /** A fork is a list of blocks; its blocks are accepted in order and reverted newest first. */

  function Accepts(blocks: seq<Block>): (msgs: seq<EngineMsg>)
    ensures |msgs| == |blocks| && forall i :: 0 <= i < |blocks| ==> msgs[i] == BlkAccepted(blocks[i])
  {
    seq(|blocks|, i requires 0 <= i < |blocks| => BlkAccepted(blocks[i]))
  }

  function Reverts(blocks: seq<Block>): (msgs: seq<EngineMsg>)
    ensures |msgs| == |blocks|
    ensures forall i :: 0 <= i < |blocks| ==> msgs[i] == BlkReverted(blocks[|blocks| - 1 - i].hash)
  {
    seq(|blocks|, i requires 0 <= i < |blocks| => BlkReverted(blocks[|blocks| - 1 - i].hash))
  }

  /** The block hashes are distinct from each other and from those the engine still remembers. */
  ghost predicate Fresh(live: set<Hash>, blocks: seq<Block>)
    decreases |blocks|
  {
    blocks != [] ==> blocks[0].hash !in live && Fresh(live + {blocks[0].hash}, blocks[1..])
  }

  ghost predicate AdmissibleBlocks<S, C, R, E>(h: Host<S, C, R, E>, k: Contract<S>, blocks: seq<Block>) {
    forall b :: b in blocks ==> AdmissibleTxs(h, k, b.txs)
  }

  /** The episodes pruned, and the filtering clock reached, while a fork is accepted. */

  ghost function PrunedAlong<S, C, R, E>(h: Host<S, C, R, E>, e: State<S, R>, blocks: seq<Block>): set<EpisodeId>
    decreases |blocks|
  {
    if blocks == [] then {}
    else PrunedBy(e, blocks[0].daa) + PrunedAlong(h, AcceptBlock(h, e, blocks[0]), blocks[1..])
  }

  function ClockAlong(clock: nat, blocks: seq<Block>): nat
    decreases |blocks|
  {
    if blocks == [] then clock else ClockAlong(NextFiltering(clock, blocks[0].daa), blocks[1..])
  }

  lemma ForkCons<S, C, R, E>(h: Host<S, C, R, E>, e: State<S, R>, fork: seq<Block>)
    requires fork != []
    ensures
      Run(h, e, Accepts(fork) + Reverts(fork)) ==
      RevertBlock(h, Run(h, AcceptBlock(h, e, fork[0]), Accepts(fork[1..]) + Reverts(fork[1..])), fork[0].hash)
  {
    var msgs, inner, last := Accepts(fork) + Reverts(fork), Accepts(fork[1..]) + Reverts(fork[1..]),
      BlkReverted(fork[0].hash);
    assert msgs[1..] == inner + [last];
    var e1 := AcceptBlock(h, e, fork[0]);
    RunConcat(h, e1, inner, [last]);
    var e2 := Run(h, e1, inner);
    assert Run(h, e2, [last]) == RevertBlock(h, e2, fork[0].hash);
  }

  /** The main theorem: accepting a fork and reverting it block by block leaves exactly the trace
      of age filtering (the episodes it pruned and its clock) and nothing else. */
  lemma {:induction false} ForkLeavesOnlyAging<S(!new), C(!new), R(!new), E(!new)>(
    h: Host<S, C, R, E>, k: Contract<S>, e: State<S, R>, fork: seq<Block>)
    requires Undoes(h.ep, k) && Sound(h, k, e) && AdmissibleBlocks(h, k, fork)
    requires Fresh(e.revertMap.Keys, fork)
    ensures SameState(k, Run(h, e, Accepts(fork) + Reverts(fork)),
                      Aged(e, PrunedAlong(h, e, fork), ClockAlong(e.nextFiltering, fork)))
    decreases |fork|
  {
    if fork == [] {
      assert e.episodes - {} == e.episodes && e.creationTimes - {} == e.creationTimes;
      assert Aged(e, {}, e.nextFiltering) == e;
      SameStateReflexive(k, e);
    } else {
      var b := fork[0];
      var e1 := AcceptBlock(h, e, b);
      StepSound(h, k, e, BlkAccepted(b));
      RunTxsSound(h, k, Filter(e, b.daa), b, b.txs);
      assert e1.revertMap.Keys == e.revertMap.Keys + {b.hash};
      ForkLeavesOnlyAging(h, k, e1, fork[1..]);
      var gone, clock := PrunedAlong(h, e1, fork[1..]), ClockAlong(e1.nextFiltering, fork[1..]);
      var reached := Run(h, e1, Accepts(fork[1..]) + Reverts(fork[1..]));
      ForkCons(h, e, fork);
      RunSound(h, k, e1, Accepts(fork[1..]) + Reverts(fork[1..]));
      ForkLast(h, k, e, b, reached, gone, clock);
      AgedTwice(e, PrunedBy(e, b.daa), NextFiltering(e.nextFiltering, b.daa), gone, clock);
    }
  }

  /** The outermost block of a fork, once the blocks after it have come and gone. */
  lemma ForkLast<S(!new), C(!new), R(!new), E(!new)>(
    h: Host<S, C, R, E>, k: Contract<S>, e: State<S, R>, b: Block, reached: State<S, R>, gone: set<EpisodeId>,
    clock: nat)
    requires Undoes(h.ep, k) && Sound(h, k, e) && Sound(h, k, reached) && AdmissibleTxs(h, k, b.txs)
    requires b.hash !in e.revertMap && SameState(k, reached, Aged(AcceptBlock(h, e, b), gone, clock))
    ensures SameState(k, RevertBlock(h, reached, b.hash), Aged(Filter(e, b.daa), gone, clock))
  {
    var e1 := AcceptBlock(h, e, b);
    StepRespects(h, k, reached, Aged(e1, gone, clock), BlkReverted(b.hash));
    AgedRevertBlock(h, e1, gone, clock, b.hash);
    BlockThenRevert(h, k, e, b);
    AgedRespects(k, RevertBlock(h, e1, b.hash), Filter(e, b.daa), gone, clock);
    SameStateTransitive(k, RevertBlock(h, reached, b.hash), Aged(RevertBlock(h, e1, b.hash), gone, clock),
                        Aged(Filter(e, b.daa), gone, clock));
  }

  lemma AgedRespects<S, R>(k: Contract<S>, e: State<S, R>, f: State<S, R>, gone: set<EpisodeId>, clock: nat)
    requires SameState(k, e, f)
    ensures SameState(k, Aged(e, gone, clock), Aged(f, gone, clock))
  {
  }
}
