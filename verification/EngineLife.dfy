/** When the current chain determines an episode, exactly: with no bound on the scores. */
module EngineLife {
  import opened Primitives
  import opened Episodes
  import opened EngineSpec
  import opened EngineFrame
  import opened EngineReorg
  import opened EngineSlices
  import opened EngineTransparency
  import opened EngineChain
  import opened EngineEpisodes

  /** Engines whose clock is so late that no block triggers filtering. */

  ghost predicate Before(blocks: seq<Block>, top: nat) {
    forall b :: b in blocks ==> b.daa <= top
  }

  /** What such a run keeps: the chain is good, and the engine agrees with the one that was sent the
      chain alone. */
  ghost predicate Settled<S, C, R, E>(
    h: Host<S, C, R, E>, k: Contract<S>, e0: State<S, R>, e: State<S, R>, chain: seq<Block>)
  {
    && Sound(h, k, e) && ChainOk(h, k, e0.revertMap.Keys, chain) && Before(chain, e0.nextFiltering)
    && SameState(k, e, RunChain(h, e0, chain))
  }

  lemma StillFilter<S, R>(e: State<S, R>, daa: nat)
    requires PrunedBy(e, daa) == {}
    ensures Filter(e, daa) == AtClock(e, NextFiltering(e.nextFiltering, daa))
  {
    assert e.episodes - {} == e.episodes && e.creationTimes - {} == e.creationTimes;
  }

  lemma {:induction false} ClockOfChain<S, C, R, E>(h: Host<S, C, R, E>, e: State<S, R>, chain: seq<Block>)
    requires Before(chain, e.nextFiltering)
    ensures RunChain(h, e, chain).nextFiltering == e.nextFiltering
    decreases |chain|
  {
    if chain != [] {
      var b, rest := chain[|chain| - 1], chain[..|chain| - 1];
      assert b in chain;
      ClockOfChain(h, e, rest);
      TxsFrame(h, Filter(RunChain(h, e, rest), b.daa), b, b.txs);
    }
  }

  lemma AcceptSettled<S(!new), C(!new), R(!new), E(!new)>(
    h: Host<S, C, R, E>, k: Contract<S>, e0: State<S, R>, e: State<S, R>, chain: seq<Block>, b: Block)
    requires Undoes(h.ep, k) && Settled(h, k, e0, e, chain)
    requires b.hash !in e0.revertMap.Keys + HashesOf(chain)
    requires AdmissibleTxs(h, k, b.txs) && b.daa <= e0.nextFiltering
    ensures Settled(h, k, e0, AcceptBlock(h, e, b), chain + [b])
  {
    assert (chain + [b])[..|chain|] == chain;
    AcceptSound(h, k, e, b);
    StepRespects(h, k, e, RunChain(h, e0, chain), BlkAccepted(b));
  }

  lemma TipSettled<S(!new), C(!new), R(!new), E(!new)>(
    h: Host<S, C, R, E>, k: Contract<S>, e0: State<S, R>, e: State<S, R>, chain: seq<Block>)
    requires Undoes(h.ep, k) && Sound(h, k, e0) && Settled(h, k, e0, e, chain) && chain != []
    ensures Settled(h, k, e0, RevertBlock(h, e, chain[|chain| - 1].hash), chain[..|chain| - 1])
  {
    var b, rest := chain[|chain| - 1], chain[..|chain| - 1];
    var f := RunChain(h, e0, chain);
    assert b in chain && forall c :: c in rest ==> c in chain;
    StepSound(h, k, e, BlkReverted(b.hash));
    StepRespects(h, k, e, f, BlkReverted(b.hash));
    TipReverted(h, k, e0, chain);
    ClockOfChain(h, e0, rest);
    StillFilter(RunChain(h, e0, rest), b.daa);
    SameStateTransitive(k, RevertBlock(h, e, b.hash), RevertBlock(h, f, b.hash), RunChain(h, e0, rest));
  }

  lemma UnknownSettled<S(!new), C(!new), R(!new), E(!new)>(
    h: Host<S, C, R, E>, k: Contract<S>, e0: State<S, R>, e: State<S, R>, chain: seq<Block>, hash: Hash)
    requires Undoes(h.ep, k) && Sound(h, k, e0) && Settled(h, k, e0, e, chain)
    requires hash !in e0.revertMap.Keys + HashesOf(chain)
    ensures RevertBlock(h, e, hash) == e
  {
    RunChainSound(h, k, e0, chain);
  }

  /** The blocks accepted in a run, those reverted again included. */
  function Accepted(msgs: seq<EngineMsg>): (blocks: seq<Block>) {
    if msgs == [] then []
    else if msgs[0].BlkAccepted? then [msgs[0].block] + Accepted(msgs[1..])
    else Accepted(msgs[1..])
  }

  lemma {:induction false} RunSettled<S(!new), C(!new), R(!new), E(!new)>(
    h: Host<S, C, R, E>, k: Contract<S>, e0: State<S, R>, e: State<S, R>, chain: seq<Block>, msgs: seq<EngineMsg>)
    requires Undoes(h.ep, k) && Sound(h, k, e0) && Settled(h, k, e0, e, chain)
    requires FollowsAll(e0.revertMap.Keys, chain, msgs) && AdmissibleMsgs(h, k, msgs)
    requires Before(Accepted(msgs), e0.nextFiltering)
    ensures Settled(h, k, e0, Run(h, e, msgs), ChainAfter(chain, msgs))
    decreases |msgs|
  {
    if msgs != [] {
      assert msgs[0] in msgs && forall m :: m in msgs[1..] ==> m in msgs;
      match msgs[0] {
        case BlkAccepted(b) =>
          assert b in Accepted(msgs) && forall c :: c in Accepted(msgs[1..]) ==> c in Accepted(msgs);
          AcceptSettled(h, k, e0, e, chain, b);
        case BlkReverted(hash) =>
          if chain != [] && chain[|chain| - 1].hash == hash {
            TipSettled(h, k, e0, e, chain);
          } else {
            UnknownSettled(h, k, e0, e, chain, hash);
          }
      }
      RunSettled(h, k, e0, Step(h, e, msgs[0]), Next(chain, msgs[0]), msgs[1..]);
    }
  }

  /** A run in which filtering prunes nobody is, but for the clock, the run that never filters. */

  ghost predicate Spared<S, C, R, E>(h: Host<S, C, R, E>, e: State<S, R>, msgs: seq<EngineMsg>)
    decreases |msgs|
  {
    msgs != [] && !msgs[0].Exit? ==>
      && (msgs[0].BlkAccepted? ==> PrunedBy(e, msgs[0].block.daa) == {})
      && Spared(h, Step(h, e, msgs[0]), msgs[1..])
  }

  lemma SparedStep<S, C, R, E>(h: Host<S, C, R, E>, e: State<S, R>, top: nat, msg: EngineMsg)
    requires !msg.Exit? && (msg.BlkAccepted? ==> PrunedBy(e, msg.block.daa) == {} && msg.block.daa <= top)
    ensures Step(h, AtClock(e, top), msg) == AtClock(Step(h, e, msg), top)
  {
    match msg {
      case BlkAccepted(b) =>
        StillFilter(e, b.daa);
        StillFilter(AtClock(e, top), b.daa);
        TxsClock(h, e, NextFiltering(e.nextFiltering, b.daa), b, b.txs);
        TxsClock(h, e, top, b, b.txs);
      case BlkReverted(hash) =>
        if hash in e.revertMap {
          RevertEntriesClock(h, e.(revertMap := e.revertMap - {hash}), top, e.revertMap[hash]);
        }
    }
  }

  lemma {:induction false} SparedRun<S, C, R, E>(
    h: Host<S, C, R, E>, e: State<S, R>, top: nat, msgs: seq<EngineMsg>)
    requires Spared(h, e, msgs) && Before(Accepted(msgs), top)
    ensures Run(h, AtClock(e, top), msgs) == AtClock(Run(h, e, msgs), top)
    decreases |msgs|
  {
    if msgs == [] || msgs[0].Exit? {
    } else {
      if msgs[0].BlkAccepted? {
        assert msgs[0].block in Accepted(msgs);
      }
      assert forall c :: c in Accepted(msgs[1..]) ==> c in Accepted(msgs);
      SparedStep(h, e, top, msgs[0]);
      SparedRun(h, Step(h, e, msgs[0]), top, msgs[1..]);
    }
  }

  function Latest(blocks: seq<Block>): (top: nat)
    ensures forall b :: b in blocks ==> b.daa <= top
  {
    if blocks == [] then 0
    else
      var rest := Latest(blocks[1..]);
      if blocks[0].daa > rest then blocks[0].daa else rest
  }

  lemma {:induction false} ChainOfAccepted(chain: seq<Block>, msgs: seq<EngineMsg>)
    ensures forall b :: b in ChainAfter(chain, msgs) ==> b in chain + Accepted(msgs)
    decreases |msgs|
  {
    if msgs != [] {
      ChainOfAccepted(Next(chain, msgs[0]), msgs[1..]);
    }
  }

  lemma {:induction false} AcceptedOfAccepts(blocks: seq<Block>)
    ensures Accepted(Accepts(blocks)) == blocks
    decreases |blocks|
  {
    if blocks != [] {
      assert Accepts(blocks)[1..] == Accepts(blocks[1..]);
      AcceptedOfAccepts(blocks[1..]);
    }
  }

  /** Whatever the scores: if filtering prunes nobody, neither in the run nor when the current chain
      alone is sent, the two agree but for the clock. */
  lemma ChainDeterminesSpared<S(!new), C(!new), R(!new), E(!new)>(
    h: Host<S, C, R, E>, k: Contract<S>, e0: State<S, R>, msgs: seq<EngineMsg>)
    requires Undoes(h.ep, k) && Sound(h, k, e0)
    requires FollowsAll(e0.revertMap.Keys, [], msgs) && AdmissibleMsgs(h, k, msgs)
    requires Spared(h, e0, msgs) && Spared(h, e0, Accepts(ChainAfter([], msgs)))
    ensures SameButClock(k, Run(h, e0, msgs), Run(h, e0, Accepts(ChainAfter([], msgs))))
  {
    var top, chain := Latest(Accepted(msgs)), ChainAfter([], msgs);
    ChainOfAccepted([], msgs);
    AcceptedOfAccepts(chain);
    SparedRun(h, e0, top, msgs);
    SparedRun(h, e0, top, Accepts(chain));
    LateAgrees(h, k, e0, top, msgs);
    SameBeforeClock(k, Run(h, e0, msgs), Run(h, e0, Accepts(chain)), top);
  }

  /** At a clock that late, the run is what the chain alone gives. */
  lemma LateAgrees<S(!new), C(!new), R(!new), E(!new)>(
    h: Host<S, C, R, E>, k: Contract<S>, e0: State<S, R>, top: nat, msgs: seq<EngineMsg>)
    requires Undoes(h.ep, k) && Sound(h, k, e0) && Before(Accepted(msgs), top)
    requires FollowsAll(e0.revertMap.Keys, [], msgs) && AdmissibleMsgs(h, k, msgs)
    ensures SameState(k, Run(h, AtClock(e0, top), msgs), Run(h, AtClock(e0, top), Accepts(ChainAfter([], msgs))))
  {
    var late := AtClock(e0, top);
    SameStateReflexive(k, late);
    RunSettled(h, k, late, late, [], msgs);
    RunChainIsRun(h, late, ChainAfter([], msgs));
  }

  lemma SameBeforeClock<S, R>(k: Contract<S>, e: State<S, R>, f: State<S, R>, top: nat)
    requires SameState(k, AtClock(e, top), AtClock(f, top))
    ensures SameButClock(k, e, f)
  {
  }

  /** How long an episode lives that is live already. */

  /** The episode, if live, was created then. */
  ghost predicate Dated<S, R>(e: State<S, R>, id: EpisodeId, creation: nat) {
    Matched(e) && (id in e.creationTimes ==> e.creationTimes[id] == creation)
  }

  lemma {:induction false} TxsDated<S, C, R, E>(
    h: Host<S, C, R, E>, e: State<S, R>, b: Block, txs: seq<Tx>, id: EpisodeId, creation: nat)
    requires Dated(e, id, creation) && NotCreatedIn(h, txs, id)
    ensures Dated(RunTxs(h, e, b, txs).0, id, creation)
  {
    TxsExtend(h, e, b, txs);
    if id !in e.creationTimes {
      TxsDoNotRevive(h, e, b, txs, id);
    }
  }

  lemma {:induction false} RevertEntriesDated<S, C, R, E>(
    h: Host<S, C, R, E>, e: State<S, R>, entries: seq<Entry>, id: EpisodeId, creation: nat)
    requires Dated(e, id, creation)
    ensures Dated(RevertEntries(h, e, entries), id, creation)
    decreases |entries|
  {
    if entries != [] {
      var last := |entries| - 1;
      RevertEntriesDated(h, RevertOne(h, e, entries[last].id), entries[..last], id, creation);
    }
  }

  lemma StepDated<S, C, R, E>(h: Host<S, C, R, E>, e: State<S, R>, msg: EngineMsg, id: EpisodeId, creation: nat)
    requires Dated(e, id, creation) && !msg.Exit? && (msg.BlkAccepted? ==> NotCreatedIn(h, msg.block.txs, id))
    ensures Dated(Step(h, e, msg), id, creation)
    ensures Step(h, e, msg).nextFiltering ==
            if msg.BlkAccepted? then NextFiltering(e.nextFiltering, msg.block.daa) else e.nextFiltering
  {
    match msg {
      case BlkAccepted(b) =>
        TxsDated(h, Filter(e, b.daa), b, b.txs, id, creation);
        TxsFrame(h, Filter(e, b.daa), b, b.txs);
      case BlkReverted(hash) =>
        if hash in e.revertMap {
          RevertEntriesDated(h, e.(revertMap := e.revertMap - {hash}), e.revertMap[hash], id, creation);
          RevertEntriesFrame(h, e.(revertMap := e.revertMap - {hash}), e.revertMap[hash]);
        }
    }
  }

  /** An episode found too old is gone, whatever is reverted and whatever rollbacks do. */
  lemma {:induction false} LostWhenTooOld<S, C, R, E>(
    h: Host<S, C, R, E>, e: State<S, R>, msgs: seq<EngineMsg>, id: EpisodeId, creation: nat)
    requires Dated(e, id, creation) && NeverCreated(h, msgs, id) && Exit !in msgs
    requires !Outlives(creation, e.nextFiltering, Accepted(msgs))
    ensures id !in Run(h, e, msgs).episodes
    decreases |msgs|
  {
    if msgs == [] {
      assert false;
    } else {
      assert msgs[0] in msgs && forall m :: m in msgs[1..] ==> m in msgs;
      if id !in e.episodes {
        NeverRevived(h, e, msgs, id);
      } else if msgs[0].BlkAccepted? && id in PrunedBy(e, msgs[0].block.daa) {
        assert [BlkAccepted(msgs[0].block)] + msgs[1..] == msgs;
        PrunedForGood(h, e, msgs[0].block, msgs[1..], id);
      } else {
        StepDated(h, e, msgs[0], id, creation);
        LostWhenTooOld(h, Step(h, e, msgs[0]), msgs[1..], id, creation);
      }
    }
  }

  /** No accepted transaction creates an episode. */
  ghost predicate Uncreating<S, C, R, E>(h: Host<S, C, R, E>, msgs: seq<EngineMsg>) {
    forall m, tx :: m in msgs && m.BlkAccepted? && tx in m.block.txs ==> !Creates(h, tx)
  }

  /** All there is concerns one episode. */
  ghost predicate Alone<S, R>(e: State<S, R>, id: EpisodeId) {
    e.creationTimes.Keys <= {id}
  }

  lemma {:induction false} SparedWhenOutlived<S, C, R, E>(
    h: Host<S, C, R, E>, e: State<S, R>, msgs: seq<EngineMsg>, id: EpisodeId, creation: nat)
    requires Dated(e, id, creation) && Exit !in msgs
    requires Outlives(creation, e.nextFiltering, Accepted(msgs)) && Uncreating(h, msgs) && Alone(e, id)
    ensures Spared(h, e, msgs)
    decreases |msgs|
  {
    if msgs != [] {
      assert msgs[0] in msgs && forall m :: m in msgs[1..] ==> m in msgs;
      StepDated(h, e, msgs[0], id, creation);
      StepAlone(h, e, msgs[0], id);
      SparedWhenOutlived(h, Step(h, e, msgs[0]), msgs[1..], id, creation);
    }
  }

  lemma StepAlone<S, C, R, E>(h: Host<S, C, R, E>, e: State<S, R>, msg: EngineMsg, id: EpisodeId)
    requires Alone(e, id) && !msg.Exit?
    requires msg.BlkAccepted? ==> forall tx :: tx in msg.block.txs ==> !Creates(h, tx)
    ensures Alone(Step(h, e, msg), id)
  {
    match msg {
      case BlkAccepted(b) => TxsAlone(h, Filter(e, b.daa), b, b.txs, id);
      case BlkReverted(hash) =>
        if hash in e.revertMap {
          RevertEntriesAlone(h, e.(revertMap := e.revertMap - {hash}), e.revertMap[hash], id);
        }
    }
  }

  lemma {:induction false} TxsAlone<S, C, R, E>(
    h: Host<S, C, R, E>, e: State<S, R>, b: Block, txs: seq<Tx>, id: EpisodeId)
    requires Alone(e, id) && forall tx :: tx in txs ==> !Creates(h, tx)
    ensures Alone(RunTxs(h, e, b, txs).0, id)
    decreases |txs|
  {
    if txs != [] {
      assert txs[|txs| - 1] in txs;
      TxsAlone(h, e, b, txs[..|txs| - 1], id);
    }
  }

  lemma {:induction false} RevertEntriesAlone<S, C, R, E>(
    h: Host<S, C, R, E>, e: State<S, R>, entries: seq<Entry>, id: EpisodeId)
    requires Alone(e, id)
    ensures Alone(RevertEntries(h, e, entries), id)
    decreases |entries|
  {
    if entries != [] {
      var last := |entries| - 1;
      RevertEntriesAlone(h, RevertOne(h, e, entries[last].id), entries[..last], id);
    }
  }

  lemma {:induction false} AcceptsKeep<S, C, R, E>(
    h: Host<S, C, R, E>, e: State<S, R>, blocks: seq<Block>, id: EpisodeId)
    requires Matched(e) && id in e.episodes && Spared(h, e, Accepts(blocks))
    ensures id in Run(h, e, Accepts(blocks)).episodes
    decreases |blocks|
  {
    if blocks != [] {
      assert Accepts(blocks)[0] == BlkAccepted(blocks[0]) && Accepts(blocks)[1..] == Accepts(blocks[1..]);
      StillFilter(e, blocks[0].daa);
      TxsExtend(h, Filter(e, blocks[0].daa), blocks[0], blocks[0].txs);
      AcceptsKeep(h, AcceptBlock(h, e, blocks[0]), blocks[1..], id);
    }
  }

  lemma {:induction false} LateIsSpared<S, C, R, E>(h: Host<S, C, R, E>, e: State<S, R>, blocks: seq<Block>)
    requires Before(blocks, e.nextFiltering)
    ensures Spared(h, e, Accepts(blocks))
    decreases |blocks|
  {
    if blocks != [] {
      assert Accepts(blocks)[0] == BlkAccepted(blocks[0]) && Accepts(blocks)[1..] == Accepts(blocks[1..]);
      TxsFrame(h, Filter(e, blocks[0].daa), blocks[0], blocks[0].txs);
      LateIsSpared(h, AcceptBlock(h, e, blocks[0]), blocks[1..]);
    }
  }

  /** A run that spares everybody, and reverts only its newest blocks, loses nobody. */
  lemma SparedLives<S(!new), C(!new), R(!new), E(!new)>(
    h: Host<S, C, R, E>, k: Contract<S>, e0: State<S, R>, msgs: seq<EngineMsg>, id: EpisodeId)
    requires Undoes(h.ep, k) && Sound(h, k, e0) && id in e0.episodes
    requires FollowsAll(e0.revertMap.Keys, [], msgs) && AdmissibleMsgs(h, k, msgs) && Spared(h, e0, msgs)
    ensures id in Run(h, e0, msgs).episodes
  {
    var top, chain := Latest(Accepted(msgs)), ChainAfter([], msgs);
    var late := AtClock(e0, top);
    ChainOfAccepted([], msgs);
    SparedRun(h, e0, top, msgs);
    LateAgrees(h, k, e0, top, msgs);
    LateIsSpared(h, late, chain);
    AcceptsKeep(h, late, chain, id);
  }

  lemma UncreatingAdmissible<S, C, R, E>(h: Host<S, C, R, E>, k: Contract<S>, msgs: seq<EngineMsg>)
    requires Uncreating(h, msgs)
    ensures AdmissibleMsgs(h, k, msgs)
  {
    forall m, tx | m in msgs && m.BlkAccepted? && tx in m.block.txs ensures AdmissibleTx(h, k, tx) {
      assert !Creates(h, tx);
    }
  }

  /** For an engine of one episode, which is live. */
  lemma LivesIff<S(!new), C(!new), R(!new), E(!new)>(
    h: Host<S, C, R, E>, k: Contract<S>, e0: State<S, R>, msgs: seq<EngineMsg>, id: EpisodeId)
    requires Undoes(h.ep, k) && Sound(h, k, e0) && Alone(e0, id) && id in e0.episodes
    requires FollowsAll(e0.revertMap.Keys, [], msgs) && Uncreating(h, msgs)
    ensures id in Run(h, e0, msgs).episodes <==> Outlives(e0.creationTimes[id], e0.nextFiltering, Accepted(msgs))
    ensures Outlives(e0.creationTimes[id], e0.nextFiltering, Accepted(msgs)) ==> Spared(h, e0, msgs)
  {
    var creation := e0.creationTimes[id];
    NoExit(e0.revertMap.Keys, [], msgs);
    if Outlives(creation, e0.nextFiltering, Accepted(msgs)) {
      UncreatingAdmissible(h, k, msgs);
      SparedWhenOutlived(h, e0, msgs, id, creation);
      SparedLives(h, k, e0, msgs, id);
    } else {
      LostWhenTooOld(h, e0, msgs, id, creation);
    }
  }

  /** Cutting blocks down to one episode leaves their scores. */

  lemma {:induction false} AcceptedSlice<S, C, R, E>(h: Host<S, C, R, E>, msgs: seq<EngineMsg>, id: EpisodeId)
    ensures Accepted(SliceMsgs(h, msgs, id)) == SliceChain(h, Accepted(msgs), id)
    decreases |msgs|
  {
    if msgs != [] {
      assert SliceMsgs(h, msgs, id)[1..] == SliceMsgs(h, msgs[1..], id);
      AcceptedSlice(h, msgs[1..], id);
    }
  }

  lemma {:induction false} OutlivesSlice<S, C, R, E>(
    h: Host<S, C, R, E>, creation: nat, clock: nat, blocks: seq<Block>, id: EpisodeId)
    ensures Outlives(creation, clock, SliceChain(h, blocks, id)) == Outlives(creation, clock, blocks)
    decreases |blocks|
  {
    if blocks != [] {
      assert SliceChain(h, blocks, id)[1..] == SliceChain(h, blocks[1..], id);
      OutlivesSlice(h, creation, NextFiltering(clock, blocks[0].daa), blocks[1..], id);
    }
  }

  lemma {:induction false} TxsOfFor<S, C, R, E>(h: Host<S, C, R, E>, txs: seq<Tx>, id: EpisodeId)
    ensures forall tx :: tx in TxsOf(h, txs, id) ==> tx in txs && IsFor(h, tx, id)
    decreases |txs|
  {
    if txs != [] {
      TxsOfFor(h, txs[..|txs| - 1], id);
    }
  }

  lemma SliceUncreating<S, C, R, E>(h: Host<S, C, R, E>, msgs: seq<EngineMsg>, id: EpisodeId)
    requires NeverCreated(h, msgs, id)
    ensures Uncreating(h, SliceMsgs(h, msgs, id))
  {
    SliceMsgsAt(h, msgs, id);
    forall m | m in SliceMsgs(h, msgs, id) && m.BlkAccepted?
      ensures forall tx :: tx in m.block.txs ==> !Creates(h, tx)
    {
      var i :| 0 <= i < |msgs| && m == SliceMsg(h, msgs[i], id);
      assert msgs[i] in msgs && NotCreatedIn(h, msgs[i].block.txs, id);
      TxsOfFor(h, msgs[i].block.txs, id);
    }
  }

  lemma ChainUncreating<S, C, R, E>(h: Host<S, C, R, E>, msgs: seq<EngineMsg>)
    requires Uncreating(h, msgs)
    ensures Uncreating(h, Accepts(ChainAfter([], msgs)))
  {
    ChainOfAccepted([], msgs);
    AcceptedWere(msgs);
    AcceptedWere(Accepts(ChainAfter([], msgs)));
    AcceptedOfAccepts(ChainAfter([], msgs));
    forall m | m in Accepts(ChainAfter([], msgs)) && m.BlkAccepted?
      ensures forall tx :: tx in m.block.txs ==> !Creates(h, tx)
    {
      assert m == BlkAccepted(m.block);
      assert m.block in Accepted(msgs) && BlkAccepted(m.block) in msgs;
    }
  }

  lemma {:induction false} AcceptedWere(msgs: seq<EngineMsg>)
    ensures forall b :: b in Accepted(msgs) <==> BlkAccepted(b) in msgs
    decreases |msgs|
  {
    if msgs != [] {
      AcceptedWere(msgs[1..]);
    }
  }

  /** For an engine of one episode, which is live: the run and the chain alone. */
  lemma SliceDecided<S(!new), C(!new), R(!new), E(!new)>(
    h: Host<S, C, R, E>, k: Contract<S>, e0: State<S, R>, msgs: seq<EngineMsg>, id: EpisodeId)
    requires Undoes(h.ep, k) && Sound(h, k, e0) && Alone(e0, id) && id in e0.episodes
    requires FollowsAll(e0.revertMap.Keys, [], msgs) && Uncreating(h, msgs)
    ensures
      var actual, alone := Run(h, e0, msgs), Run(h, e0, Accepts(ChainAfter([], msgs)));
      && (id in alone.episodes <==> Outlives(e0.creationTimes[id], e0.nextFiltering, ChainAfter([], msgs)))
      && (id in actual.episodes && id in alone.episodes ==> SameButClock(k, actual, alone))
  {
    var creation, chain := e0.creationTimes[id], ChainAfter([], msgs);
    ChainUncreating(h, msgs);
    AcceptedOfAccepts(chain);
    if Outlives(creation, e0.nextFiltering, chain) {
      SparedWhenOutlived(h, e0, Accepts(chain), id, creation);
      AcceptsKeep(h, e0, chain, id);
      LivesIff(h, k, e0, msgs, id);
      if id in Run(h, e0, msgs).episodes {
        UncreatingAdmissible(h, k, msgs);
        ChainDeterminesSpared(h, k, e0, msgs);
      }
    } else {
      LostWhenTooOld(h, e0, Accepts(chain), id, creation);
    }
  }

  /** An episode that is live, and not created again, whatever the scores and however often the chain
      is reorganised. It is live in the end exactly if it was not too old at any filtering that any
      accepted block triggered, those reverted again included; had the engine been sent the current
      chain alone, exactly if at none that those blocks trigger. When it is live in both, all that
      concerns it is the same but for the clock. */
  lemma EpisodeDeterminedIff<S(!new), C(!new), R(!new), E(!new)>(
    h: Host<S, C, R, E>, k: Contract<S>, e0: State<S, R>, msgs: seq<EngineMsg>, id: EpisodeId)
    requires Undoes(h.ep, k) && Sound(h, k, Slice(e0, id)) && id in e0.episodes && id in e0.creationTimes
    requires FollowsAll(e0.revertMap.Keys, [], msgs) && NeverCreated(h, msgs, id)
    ensures
      var actual, alone := Run(h, e0, msgs), Run(h, e0, Accepts(ChainAfter([], msgs)));
      && (id in actual.episodes <==> Outlives(e0.creationTimes[id], e0.nextFiltering, Accepted(msgs)))
      && (id in alone.episodes <==> Outlives(e0.creationTimes[id], e0.nextFiltering, ChainAfter([], msgs)))
      && (id in actual.episodes && id in alone.episodes ==> SameButClock(k, Slice(actual, id), Slice(alone, id)))
  {
    var mine, e, creation := SliceMsgs(h, msgs, id), Slice(e0, id), e0.creationTimes[id];
    SlicedRuns(h, e0, msgs, id);
    SliceUncreating(h, msgs, id);
    LivesIff(h, k, e, mine, id);
    SliceDecided(h, k, e, mine, id);
    AcceptedSlice(h, msgs, id);
    OutlivesSlice(h, creation, e0.nextFiltering, Accepted(msgs), id);
    OutlivesSlice(h, creation, e0.nextFiltering, ChainAfter([], msgs), id);
    assert SliceChain(h, [], id) == [];
    SliceFollowsAll(h, e0.revertMap.Keys, [], msgs, id);
  }
}
