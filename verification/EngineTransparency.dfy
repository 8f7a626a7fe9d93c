/** When a reverted fork is invisible, exactly. */
module EngineTransparency {
  import opened Wrappers
  import opened Primitives
  import opened Episodes
  import opened EngineSpec
  import opened EngineFrame
  import opened EngineReorg
  import opened EngineShape

  /** No block of the fork is late enough to trigger filtering. */
  predicate Quiet(clock: nat, blocks: seq<Block>) {
    forall b :: b in blocks ==> !Fires(clock, b.daa)
  }

  /** An episode created at score `creation` is not yet too old at any filtering the blocks trigger. */
  predicate Outlives(creation: nat, clock: nat, blocks: seq<Block>)
    decreases |blocks|
  {
    blocks != [] ==>
      && !(Fires(clock, blocks[0].daa) && TooOld(creation, blocks[0].daa))
      && Outlives(creation, NextFiltering(clock, blocks[0].daa), blocks[1..])
  }

  /** Agreement on everything but the filtering clock. */
  ghost predicate SameButClock<S, R>(k: Contract<S>, e: State<S, R>, f: State<S, R>) {
    SameState(k, e, f.(nextFiltering := e.nextFiltering))
  }

  lemma {:induction false} ClockStays(clock: nat, blocks: seq<Block>)
    ensures ClockAlong(clock, blocks) >= clock
    ensures ClockAlong(clock, blocks) == clock <==> Quiet(clock, blocks)
    decreases |blocks|
  {
    if blocks != [] {
      ClockStays(NextFiltering(clock, blocks[0].daa), blocks[1..]);
      assert blocks == [blocks[0]] + blocks[1..];
    }
  }

  /** Whatever the episodes, an id is pruned along a fork exactly when some filtering that fires
      finds it past its lifetime. */
  lemma {:induction false} PrunedExactly<S, C, R, E>(
    h: Host<S, C, R, E>, e: State<S, R>, blocks: seq<Block>, id: EpisodeId)
    requires Matched(e) && id in e.creationTimes
    ensures id in PrunedAlong(h, e, blocks) <==> !Outlives(e.creationTimes[id], e.nextFiltering, blocks)
    decreases |blocks|
  {
    if blocks != [] && id !in PrunedBy(e, blocks[0].daa) {
      var b := blocks[0];
      TxsExtend(h, Filter(e, b.daa), b, b.txs);
      PrunedExactly(h, AcceptBlock(h, e, b), blocks[1..], id);
    }
  }

  /** After a fork is accepted and reverted, the live episodes are those old age did not reach,
      whatever their rollbacks do. */
  lemma SurvivorsOfFork<S, C, R, E>(h: Host<S, C, R, E>, e: State<S, R>, fork: seq<Block>)
    requires Matched(e) && Fresh(e.revertMap.Keys, fork)
    ensures
      var reached := Run(h, e, Accepts(fork) + Reverts(fork));
      forall id :: id in reached.episodes <==>
        id in e.episodes && Outlives(e.creationTimes[id], e.nextFiltering, fork)
  {
    ForkKeepsShape(h, e, fork);
    forall id | id in e.episodes
      ensures id in PrunedAlong(h, e, fork) <==> !Outlives(e.creationTimes[id], e.nextFiltering, fork)
    {
      PrunedExactly(h, e, fork, id);
    }
  }

  /** What ageing takes away shows exactly when it took a live episode. */
  lemma AgedVisible<S(!new), R>(k: Contract<S>, reached: State<S, R>, e: State<S, R>, gone: set<EpisodeId>, clock: nat)
    requires Equivalence(k) && SameState(k, reached, Aged(e, gone, clock)) && e.episodes.Keys == e.creationTimes.Keys
    ensures SameButClock(k, reached, e) <==> forall id :: id in e.episodes ==> id !in gone
    ensures SameState(k, reached, e) <==> clock == e.nextFiltering && forall id :: id in e.episodes ==> id !in gone
  {
    if forall id :: id in e.episodes ==> id !in gone {
      assert e.episodes - gone == e.episodes && e.creationTimes - gone == e.creationTimes;
    }
  }

  /** The fork leaves no trace at all exactly when it triggers no filtering. */
  lemma ForkInvisibleIffQuiet<S(!new), C(!new), R(!new), E(!new)>(
    h: Host<S, C, R, E>, k: Contract<S>, e: State<S, R>, fork: seq<Block>)
    requires Undoes(h.ep, k) && Sound(h, k, e) && AdmissibleBlocks(h, k, fork)
    requires Fresh(e.revertMap.Keys, fork)
    ensures SameState(k, Run(h, e, Accepts(fork) + Reverts(fork)), e) <==> Quiet(e.nextFiltering, fork)
  {
    ForkLeavesOnlyAging(h, k, e, fork);
    ClockStays(e.nextFiltering, fork);
    AgedVisible(k, Run(h, e, Accepts(fork) + Reverts(fork)), e, PrunedAlong(h, e, fork),
                ClockAlong(e.nextFiltering, fork));
    if Quiet(e.nextFiltering, fork) {
      QuietPrunesNothing(h, e, fork);
    }
  }

  lemma {:induction false} QuietPrunesNothing<S, C, R, E>(h: Host<S, C, R, E>, e: State<S, R>, blocks: seq<Block>)
    requires Quiet(e.nextFiltering, blocks)
    ensures PrunedAlong(h, e, blocks) == {}
    decreases |blocks|
  {
    if blocks != [] {
      var b := blocks[0];
      assert b in blocks && !Fires(e.nextFiltering, b.daa);
      TxsFrame(h, Filter(e, b.daa), b, b.txs);
      QuietPrunesNothing(h, AcceptBlock(h, e, b), blocks[1..]);
    }
  }

  /** It leaves no trace but a later filtering clock exactly when it outages no live episode. */
  lemma ForkForgottenIffOutlived<S(!new), C(!new), R(!new), E(!new)>(
    h: Host<S, C, R, E>, k: Contract<S>, e: State<S, R>, fork: seq<Block>)
    requires Undoes(h.ep, k) && Sound(h, k, e) && AdmissibleBlocks(h, k, fork)
    requires Fresh(e.revertMap.Keys, fork)
    ensures
      SameButClock(k, Run(h, e, Accepts(fork) + Reverts(fork)), e) <==>
      forall id :: id in e.episodes ==> Outlives(e.creationTimes[id], e.nextFiltering, fork)
  {
    ForkLeavesOnlyAging(h, k, e, fork);
    var gone := PrunedAlong(h, e, fork);
    AgedVisible(k, Run(h, e, Accepts(fork) + Reverts(fork)), e, gone, ClockAlong(e.nextFiltering, fork));
    forall id | id in e.episodes
      ensures id in gone <==> !Outlives(e.creationTimes[id], e.nextFiltering, fork)
    {
      PrunedExactly(h, e, fork, id);
    }
  }

  /** Reorg transparency: switching from a quiet fork A to any continuation gives what the
      continuation alone would have given. */
  lemma ReorgTransparency<S(!new), C(!new), R(!new), E(!new)>(
    h: Host<S, C, R, E>, k: Contract<S>, e: State<S, R>, forkA: seq<Block>, rest: seq<EngineMsg>)
    requires Undoes(h.ep, k) && Sound(h, k, e) && AdmissibleBlocks(h, k, forkA) && AdmissibleMsgs(h, k, rest)
    requires Fresh(e.revertMap.Keys, forkA) && Quiet(e.nextFiltering, forkA)
    ensures SameState(k, Run(h, e, Accepts(forkA) + Reverts(forkA) + rest), Run(h, e, rest))
  {
    var detour := Accepts(forkA) + Reverts(forkA);
    RunConcat(h, e, detour, rest);
    ForkInvisibleIffQuiet(h, k, e, forkA);
    RunSound(h, k, e, detour);
    RunRespects(h, k, Run(h, e, detour), e, rest);
  }

  /** Filtering is the one thing a revert does not undo. From a new engine: a block creates an
      episode; a later block arrives more than the lifetime after it, with any transaction that
      creates nothing; the later block is reverted. The episode is gone, though the engine that was
      sent the chain as it then stands, the first block alone, has it. */
  lemma FilteringIsNotUndone<S, C, R, E>(
    h: Host<S, C, R, E>, first: Block, second: Block, creation: Tx, other: Tx, id: EpisodeId, ps: seq<PubKey>)
    requires first.txs == [creation] && h.parse(creation.payload) == Some(NewEpisode(id, ps))
    requires second.txs == [other] && (h.parse(other.payload).Some? ==> !h.parse(other.payload).value.NewEpisode?)
    requires first.hash != second.hash && second.daa > first.daa + EPISODE_LIFETIME
    ensures id in Run(h, Initial(), [BlkAccepted(first)]).episodes
    ensures id !in Run(h, Initial(), [BlkAccepted(first), BlkAccepted(second), BlkReverted(second.hash)]).episodes
  {
    var e := AcceptBlock(h, Initial(), first);
    AcceptsCreation(h, first, creation, id, ps);
    assert Accepts([second]) + Reverts([second]) == [BlkAccepted(second), BlkReverted(second.hash)];
    assert !Outlives(e.creationTimes[id], e.nextFiltering, [second]);
    SurvivorsOfFork(h, e, [second]);
    assert [BlkAccepted(first), BlkAccepted(second), BlkReverted(second.hash)][1..]
        == [BlkAccepted(second), BlkReverted(second.hash)];
  }

  lemma AcceptsCreation<S, C, R, E>(h: Host<S, C, R, E>, b: Block, creation: Tx, id: EpisodeId, ps: seq<PubKey>)
    requires b.txs == [creation] && h.parse(creation.payload) == Some(NewEpisode(id, ps))
    ensures
      var e := AcceptBlock(h, Initial(), b);
      && Matched(e) && id in e.episodes && e.creationTimes[id] == b.daa
      && e.revertMap.Keys == {b.hash} && e.nextFiltering <= b.daa
  {
    var e0 := Filter(Initial<S, R>(), b.daa);
    TxsExtend(h, e0, b, b.txs);
    assert b.txs[..0] == [];
    assert RunTxs(h, e0, b, b.txs).0 == RunTx(h, e0, b, creation).0;
  }
}
