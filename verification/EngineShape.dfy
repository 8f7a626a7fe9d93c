/** What a reverted fork leaves of any episodes, whether or not their rollback is an inverse: which
    are live, since when, and how many rollbacks each has pending. */
module EngineShape {
  import opened Wrappers
  import opened Primitives
  import opened Episodes
  import opened EngineSpec
  import opened EngineFrame
  import opened EngineReorg

  /** Two engines agree on all but the episodes' states and the rollback objects themselves. */
  ghost predicate SameShape<S, R>(e: State<S, R>, f: State<S, R>) {
    && e.episodes.Keys == f.episodes.Keys
    && (forall id :: id in e.episodes ==> |e.episodes[id].stack| == |f.episodes[id].stack|)
    && e.revertMap == f.revertMap
    && e.nextFiltering == f.nextFiltering
    && e.creationTimes == f.creationTimes
  }

  lemma RevertOneShape<S, C, R, E>(h: Host<S, C, R, E>, e: State<S, R>, f: State<S, R>, id: EpisodeId)
    requires SameShape(e, f)
    ensures SameShape(RevertOne(h, e, id), RevertOne(h, f, id))
  {
  }

  lemma {:induction false} RevertEntriesShape<S, C, R, E>(
    h: Host<S, C, R, E>, e: State<S, R>, f: State<S, R>, entries: seq<Entry>)
    requires SameShape(e, f)
    ensures SameShape(RevertEntries(h, e, entries), RevertEntries(h, f, entries))
    decreases |entries|
  {
    if entries != [] {
      var last := |entries| - 1;
      RevertOneShape(h, e, f, entries[last].id);
      RevertEntriesShape(h, RevertOne(h, e, entries[last].id), RevertOne(h, f, entries[last].id), entries[..last]);
    }
  }

  lemma RevertBlockShape<S, C, R, E>(h: Host<S, C, R, E>, e: State<S, R>, f: State<S, R>, hash: Hash)
    requires SameShape(e, f)
    ensures SameShape(RevertBlock(h, e, hash), RevertBlock(h, f, hash))
  {
    if hash in e.revertMap {
      RevertEntriesShape(h, e.(revertMap := e.revertMap - {hash}), f.(revertMap := f.revertMap - {hash}),
                         e.revertMap[hash]);
    }
  }

  lemma PerformShape<S, C, R, E>(
    h: Host<S, C, R, E>, e: State<S, R>, id: EpisodeId, cmd: C, auth: Option<PubKey>, md: PayloadMetadata)
    ensures
      var (e', entry) := Perform(h, e, id, cmd, auth, md);
      match entry
      case None => SameShape(e', e)
      case Some(en) => SameShape(RevertOne(h, e', en.id), e)
  {
  }

  /** A transaction that is remembered is undone in shape by reverting its entry, and one that is
      not has changed no shape. */
  lemma TxShape<S, C, R, E>(h: Host<S, C, R, E>, e: State<S, R>, b: Block, tx: Tx)
    requires Matched(e)
    ensures
      var (e', entry) := RunTx(h, e, b, tx);
      match entry
      case None => SameShape(e', e)
      case Some(en) => SameShape(RevertOne(h, e', en.id), e)
  {
    match h.parse(tx.payload) {
      case Some(NewEpisode(id, ps)) =>
        if id !in e.episodes {
          var w := Wrapper(h.ep.initialize(ps, MetadataOf(b, tx)), []);
          assert e.episodes[id := w] - {id} == e.episodes;
          assert e.creationTimes[id := b.daa] - {id} == e.creationTimes;
        }
      case Some(SignedCommand(id, cmd, pk, sig)) => PerformShape(h, e, id, cmd, Some(pk), MetadataOf(b, tx));
      case Some(UnsignedCommand(id, cmd)) => PerformShape(h, e, id, cmd, None, MetadataOf(b, tx));
      case _ =>
    }
  }

  lemma {:induction false} TxsShape<S, C, R, E>(h: Host<S, C, R, E>, e: State<S, R>, b: Block, txs: seq<Tx>)
    requires Matched(e)
    ensures
      var (e', entries) := RunTxs(h, e, b, txs);
      SameShape(RevertEntries(h, e', entries), e)
    decreases |txs|
  {
    if txs != [] {
      var shorter := txs[..|txs| - 1];
      var (e1, entries) := RunTxs(h, e, b, shorter);
      TxsExtend(h, e, b, shorter);
      TxsShape(h, e, b, shorter);
      TxShape(h, e1, b, txs[|txs| - 1]);
      var (e2, entry) := RunTx(h, e1, b, txs[|txs| - 1]);
      if entry.Some? {
        assert (entries + [entry.value])[..|entries|] == entries;
        RevertEntriesShape(h, RevertOne(h, e2, entry.value.id), e1, entries);
      } else {
        RevertEntriesShape(h, e2, e1, entries);
      }
    }
  }

  lemma BlockShape<S, C, R, E>(h: Host<S, C, R, E>, e: State<S, R>, b: Block)
    requires Matched(e) && b.hash !in e.revertMap
    ensures SameShape(RevertBlock(h, AcceptBlock(h, e, b), b.hash), Filter(e, b.daa))
  {
    var e0 := Filter(e, b.daa);
    var (e1, entries) := RunTxs(h, e0, b, b.txs);
    TxsFrame(h, e0, b, b.txs);
    TxsShape(h, e0, b, b.txs);
    var accepted := AcceptBlock(h, e, b);
    assert accepted.revertMap - {b.hash} == e.revertMap;
    assert accepted.(revertMap := e.revertMap) == e1;
  }

  lemma AgedShape<S, R>(e: State<S, R>, f: State<S, R>, gone: set<EpisodeId>, clock: nat)
    requires SameShape(e, f)
    ensures SameShape(Aged(e, gone, clock), Aged(f, gone, clock))
  {
  }

  /** Accepting a fork of any episodes and reverting it leaves live exactly those that filtering did
      not prune, created when they were and with as many pending rollbacks as they had. */
  lemma {:induction false} ForkKeepsShape<S, C, R, E>(h: Host<S, C, R, E>, e: State<S, R>, fork: seq<Block>)
    requires Matched(e) && Fresh(e.revertMap.Keys, fork)
    ensures SameShape(Run(h, e, Accepts(fork) + Reverts(fork)),
                      Aged(e, PrunedAlong(h, e, fork), ClockAlong(e.nextFiltering, fork)))
    decreases |fork|
  {
    if fork == [] {
      assert e.episodes - {} == e.episodes && e.creationTimes - {} == e.creationTimes;
    } else {
      var b := fork[0];
      var e1 := AcceptBlock(h, e, b);
      TxsExtend(h, Filter(e, b.daa), b, b.txs);
      assert e1.revertMap.Keys == e.revertMap.Keys + {b.hash};
      ForkKeepsShape(h, e1, fork[1..]);
      var gone, clock := PrunedAlong(h, e1, fork[1..]), ClockAlong(e1.nextFiltering, fork[1..]);
      var reached := Run(h, e1, Accepts(fork[1..]) + Reverts(fork[1..]));
      ForkCons(h, e, fork);
      OutermostShape(h, e, b, reached, gone, clock);
      AgedTwice(e, PrunedBy(e, b.daa), NextFiltering(e.nextFiltering, b.daa), gone, clock);
    }
  }

  lemma OutermostShape<S, C, R, E>(
    h: Host<S, C, R, E>, e: State<S, R>, b: Block, reached: State<S, R>, gone: set<EpisodeId>, clock: nat)
    requires Matched(e) && b.hash !in e.revertMap && SameShape(reached, Aged(AcceptBlock(h, e, b), gone, clock))
    ensures SameShape(RevertBlock(h, reached, b.hash), Aged(Filter(e, b.daa), gone, clock))
  {
    var e1 := AcceptBlock(h, e, b);
    RevertBlockShape(h, reached, Aged(e1, gone, clock), b.hash);
    AgedRevertBlock(h, e1, gone, clock, b.hash);
    BlockShape(h, e, b);
    AgedShape(RevertBlock(h, e1, b.hash), Filter(e, b.daa), gone, clock);
  }
}
