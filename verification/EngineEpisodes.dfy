/** The reorganisation theorems episode by episode: what concerns one episode asks nothing of the
    others, be they created by anybody, with any participants, at any time. */
module EngineEpisodes {
  import opened Primitives
  import opened Episodes
  import opened EngineSpec
  import opened EngineFrame
  import opened EngineReorg
  import opened EngineSlices
  import opened EngineTransparency
  import opened EngineChain
  import EngineAccounting

  function SliceBlock<S, C, R, E>(h: Host<S, C, R, E>, b: Block, id: EpisodeId): Block {
    b.(txs := TxsOf(h, b.txs, id))
  }

  function SliceChain<S, C, R, E>(h: Host<S, C, R, E>, chain: seq<Block>, id: EpisodeId): (slices: seq<Block>)
    ensures |slices| == |chain| && forall i :: 0 <= i < |chain| ==> slices[i] == SliceBlock(h, chain[i], id)
  {
    seq(|chain|, i requires 0 <= i < |chain| => SliceBlock(h, chain[i], id))
  }

  lemma {:induction false} SliceMsgsAt<S, C, R, E>(h: Host<S, C, R, E>, msgs: seq<EngineMsg>, id: EpisodeId)
    ensures |SliceMsgs(h, msgs, id)| == |msgs|
    ensures forall i :: 0 <= i < |msgs| ==> SliceMsgs(h, msgs, id)[i] == SliceMsg(h, msgs[i], id)
    decreases |msgs|
  {
    if msgs != [] {
      SliceMsgsAt(h, msgs[1..], id);
    }
  }

  lemma SliceAccepts<S, C, R, E>(h: Host<S, C, R, E>, blocks: seq<Block>, id: EpisodeId)
    ensures SliceMsgs(h, Accepts(blocks), id) == Accepts(SliceChain(h, blocks, id))
  {
    SliceMsgsAt(h, Accepts(blocks), id);
  }

  lemma SliceFork<S, C, R, E>(h: Host<S, C, R, E>, fork: seq<Block>, id: EpisodeId)
    ensures SliceMsgs(h, Accepts(fork) + Reverts(fork), id) ==
            Accepts(SliceChain(h, fork, id)) + Reverts(SliceChain(h, fork, id))
  {
    SliceMsgsAt(h, Accepts(fork) + Reverts(fork), id);
  }

  lemma {:induction false} SliceHashes<S, C, R, E>(h: Host<S, C, R, E>, chain: seq<Block>, id: EpisodeId)
    ensures HashesOf(SliceChain(h, chain, id)) == HashesOf(chain)
    decreases |chain|
  {
    if chain != [] {
      SliceHashes(h, chain[..|chain| - 1], id);
      assert SliceChain(h, chain, id)[..|chain| - 1] == SliceChain(h, chain[..|chain| - 1], id);
    }
  }

  lemma SliceFollows<S, C, R, E>(
    h: Host<S, C, R, E>, earlier: set<Hash>, chain: seq<Block>, msg: EngineMsg, id: EpisodeId)
    requires Follows(earlier, chain, msg)
    ensures Follows(earlier, SliceChain(h, chain, id), SliceMsg(h, msg, id))
    ensures Next(SliceChain(h, chain, id), SliceMsg(h, msg, id)) == SliceChain(h, Next(chain, msg), id)
  {
    SliceHashes(h, chain, id);
  }

  lemma {:induction false} SliceFollowsAll<S, C, R, E>(
    h: Host<S, C, R, E>, earlier: set<Hash>, chain: seq<Block>, msgs: seq<EngineMsg>, id: EpisodeId)
    requires FollowsAll(earlier, chain, msgs)
    ensures FollowsAll(earlier, SliceChain(h, chain, id), SliceMsgs(h, msgs, id))
    ensures ChainAfter(SliceChain(h, chain, id), SliceMsgs(h, msgs, id)) == SliceChain(h, ChainAfter(chain, msgs), id)
    decreases |msgs|
  {
    if msgs != [] {
      var mine := SliceMsgs(h, msgs, id);
      assert mine[0] == SliceMsg(h, msgs[0], id) && mine[1..] == SliceMsgs(h, msgs[1..], id);
      SliceFollows(h, earlier, chain, msgs[0], id);
      SliceFollowsAll(h, earlier, Next(chain, msgs[0]), msgs[1..], id);
    }
  }

  /** An episode is determined by the current chain as long as no accepted block is more than a
      lifetime past the oldest creation of that episode. */
  lemma ChainDeterminesEpisode<S(!new), C(!new), R(!new), E(!new)>(
    h: Host<S, C, R, E>, k: Contract<S>, e0: State<S, R>, lo: nat, msgs: seq<EngineMsg>, id: EpisodeId)
    requires Undoes(h.ep, k) && Sound(h, k, Slice(e0, id)) && Since(Slice(e0, id), lo)
    requires FollowsAll(e0.revertMap.Keys, [], msgs)
    requires AdmissibleMsgs(h, k, SliceMsgs(h, msgs, id)) && InWindow(h, lo, SliceMsgs(h, msgs, id))
    ensures SameButClock(k, Slice(Run(h, e0, msgs), id), Slice(Run(h, e0, Accepts(ChainAfter([], msgs))), id))
  {
    SlicedRuns(h, e0, msgs, id);
    ChainDetermines(h, k, Slice(e0, id), lo, SliceMsgs(h, msgs, id));
  }

  /** The slices of the two runs that are compared are runs of their own. */
  lemma SlicedRuns<S, C, R, E>(h: Host<S, C, R, E>, e0: State<S, R>, msgs: seq<EngineMsg>, id: EpisodeId)
    requires FollowsAll(e0.revertMap.Keys, [], msgs)
    ensures
      var mine := SliceMsgs(h, msgs, id);
      && FollowsAll(Slice(e0, id).revertMap.Keys, [], mine)
      && Slice(Run(h, e0, msgs), id) == Run(h, Slice(e0, id), mine)
      && Slice(Run(h, e0, Accepts(ChainAfter([], msgs))), id) == Run(h, Slice(e0, id), Accepts(ChainAfter([], mine)))
  {
    var chain := ChainAfter([], msgs);
    assert SliceChain(h, [], id) == [];
    assert Slice(e0, id).revertMap.Keys == e0.revertMap.Keys;
    SliceFollowsAll(h, e0.revertMap.Keys, [], msgs, id);
    EpisodesDoNotInterfere(h, e0, msgs, id);
    EpisodesDoNotInterfere(h, e0, Accepts(chain), id);
    SliceAccepts(h, chain, id);
  }

  /** From an engine's start. */
  lemma CurrentChainDeterminesEpisode<S(!new), C(!new), R(!new), E(!new)>(
    h: Host<S, C, R, E>, k: Contract<S>, lo: nat, msgs: seq<EngineMsg>, id: EpisodeId)
    requires Undoes(h.ep, k) && FollowsAll({}, [], msgs)
    requires AdmissibleMsgs(h, k, SliceMsgs(h, msgs, id)) && InWindow(h, lo, SliceMsgs(h, msgs, id))
    ensures SameButClock(k, Slice(Run(h, Initial(), msgs), id),
                         Slice(Run(h, Initial(), Accepts(ChainAfter([], msgs))), id))
  {
    InitiallyReady(h, k, lo);
    InitialSlice<S, R>(id);
    ChainDeterminesEpisode(h, k, Initial(), lo, msgs, id);
  }

  lemma InitialSlice<S, R>(id: EpisodeId)
    ensures Slice(Initial<S, R>(), id) == Initial()
  {
  }

  /** A reverted fork is invisible to an episode exactly when it triggers no filtering. */
  lemma ForkInvisibleToEpisode<S(!new), C(!new), R(!new), E(!new)>(
    h: Host<S, C, R, E>, k: Contract<S>, e: State<S, R>, fork: seq<Block>, id: EpisodeId)
    requires Undoes(h.ep, k) && Sound(h, k, Slice(e, id)) && AdmissibleBlocks(h, k, SliceChain(h, fork, id))
    requires Fresh(e.revertMap.Keys, fork)
    ensures SameState(k, Slice(Run(h, e, Accepts(fork) + Reverts(fork)), id), Slice(e, id)) <==>
            Quiet(e.nextFiltering, fork)
  {
    SlicedFork(h, e, fork, id);
    ForkInvisibleIffQuiet(h, k, Slice(e, id), SliceChain(h, fork, id));
  }

  lemma SlicedFork<S, C, R, E>(h: Host<S, C, R, E>, e: State<S, R>, fork: seq<Block>, id: EpisodeId)
    requires Fresh(e.revertMap.Keys, fork)
    ensures
      var mine := SliceChain(h, fork, id);
      && Slice(Run(h, e, Accepts(fork) + Reverts(fork)), id) == Run(h, Slice(e, id), Accepts(mine) + Reverts(mine))
      && Fresh(Slice(e, id).revertMap.Keys, mine)
      && (Quiet(e.nextFiltering, fork) <==> Quiet(Slice(e, id).nextFiltering, mine))
  {
    var mine := SliceChain(h, fork, id);
    EpisodesDoNotInterfere(h, e, Accepts(fork) + Reverts(fork), id);
    SliceFork(h, fork, id);
    assert Slice(e, id).revertMap.Keys == e.revertMap.Keys;
    SliceFresh(h, e.revertMap.Keys, fork, id);
    assert forall b :: b in fork ==> SliceBlock(h, b, id) in mine;
  }

  lemma {:induction false} SliceFresh<S, C, R, E>(h: Host<S, C, R, E>, live: set<Hash>, fork: seq<Block>, id: EpisodeId)
    requires Fresh(live, fork)
    ensures Fresh(live, SliceChain(h, fork, id))
    decreases |fork|
  {
    if fork != [] {
      SliceFresh(h, live + {fork[0].hash}, fork[1..], id);
      assert SliceChain(h, fork, id)[1..] == SliceChain(h, fork[1..], id);
    }
  }

  /** What remains when a filtering does find an episode too old: nothing of it, for good. */

  /** No accepted transaction creates the episode. */
  ghost predicate NeverCreated<S, C, R, E>(h: Host<S, C, R, E>, msgs: seq<EngineMsg>, id: EpisodeId) {
    forall m :: m in msgs && m.BlkAccepted? ==> NotCreatedIn(h, m.block.txs, id)
  }

  predicate NotCreatedIn<S, C, R, E>(h: Host<S, C, R, E>, txs: seq<Tx>, id: EpisodeId) {
    forall tx :: tx in txs && Creates(h, tx) ==> h.parse(tx.payload).value.id != id
  }

  lemma {:induction false} TxsDoNotRevive<S, C, R, E>(
    h: Host<S, C, R, E>, e: State<S, R>, b: Block, txs: seq<Tx>, id: EpisodeId)
    requires id !in e.episodes && NotCreatedIn(h, txs, id)
    ensures id !in RunTxs(h, e, b, txs).0.episodes
    decreases |txs|
  {
    if txs != [] {
      TxsDoNotRevive(h, e, b, txs[..|txs| - 1], id);
      assert txs[|txs| - 1] in txs;
    }
  }

  lemma {:induction false} NeverRevived<S, C, R, E>(
    h: Host<S, C, R, E>, e: State<S, R>, msgs: seq<EngineMsg>, id: EpisodeId)
    requires id !in e.episodes && NeverCreated(h, msgs, id)
    ensures id !in Run(h, e, msgs).episodes
    decreases |msgs|
  {
    if msgs == [] || msgs[0].Exit? {
    } else {
      assert msgs[0] in msgs && forall m :: m in msgs[1..] ==> m in msgs;
      match msgs[0] {
        case BlkAccepted(b) => TxsDoNotRevive(h, Filter(e, b.daa), b, b.txs, id);
        case BlkReverted(hash) =>
          if hash in e.revertMap {
            EngineAccounting.RevertEntriesRevivesNothing(h, e.(revertMap := e.revertMap - {hash}),
                                                         e.revertMap[hash], id);
          }
      }
      NeverRevived(h, Step(h, e, msgs[0]), msgs[1..], id);
    }
  }

  /** Unless it is created again, an episode is absent after an accepted block and anything that
      follows it, reverts of that block included, if filtering found it too old there. */
  lemma PrunedForGood<S, C, R, E>(
    h: Host<S, C, R, E>, e: State<S, R>, b: Block, msgs: seq<EngineMsg>, id: EpisodeId)
    requires id in e.creationTimes && Fires(e.nextFiltering, b.daa) && TooOld(e.creationTimes[id], b.daa)
    requires NotCreatedIn(h, b.txs, id) && NeverCreated(h, msgs, id)
    ensures id !in Run(h, e, [BlkAccepted(b)] + msgs).episodes
  {
    assert ([BlkAccepted(b)] + msgs)[1..] == msgs;
    TxsDoNotRevive(h, Filter(e, b.daa), b, b.txs, id);
    NeverRevived(h, AcceptBlock(h, e, b), msgs, id);
  }

  /** An episode that is live, and not created again, is there after any accepted blocks exactly if it
      was not too old at any filtering they triggered. */
  lemma {:induction false} SurvivesIff<S, C, R, E>(
    h: Host<S, C, R, E>, e: State<S, R>, blocks: seq<Block>, id: EpisodeId)
    requires Matched(e) && id in e.episodes
    requires forall b :: b in blocks ==> NotCreatedIn(h, b.txs, id)
    ensures id in Run(h, e, Accepts(blocks)).episodes <==>
            Outlives(e.creationTimes[id], e.nextFiltering, blocks)
    decreases |blocks|
  {
    if blocks != [] {
      var b, e0, e1 := blocks[0], Filter(e, blocks[0].daa), AcceptBlock(h, e, blocks[0]);
      assert Accepts(blocks)[1..] == Accepts(blocks[1..]);
      TxsExtend(h, e0, b, b.txs);
      if id in PrunedBy(e, b.daa) {
        TxsDoNotRevive(h, e0, b, b.txs, id);
        assert forall m :: m in Accepts(blocks[1..]) && m.BlkAccepted? ==> m.block in blocks;
        NeverRevived(h, e1, Accepts(blocks[1..]), id);
      } else {
        SurvivesIff(h, e1, blocks[1..], id);
      }
    }
  }
}
