/** The engine's state is determined by the current chain, however many reorganisations led to it. */
module EngineChain {
  import opened Primitives
  import opened Episodes
  import opened EngineSpec
  import opened EngineReorg
  import opened EngineTransparency

  function HashesOf(chain: seq<Block>): set<Hash> {
    if chain == [] then {} else HashesOf(chain[..|chain| - 1]) + {chain[|chain| - 1].hash}
  }

  /** The message extends the chain by a new block, takes its newest block away, or reverts a block
      that was never sent. `earlier` are the hashes remembered from before. */
  predicate Follows(earlier: set<Hash>, chain: seq<Block>, msg: EngineMsg) {
    match msg
    case BlkAccepted(b) => b.hash !in earlier + HashesOf(chain)
    case BlkReverted(hash) => (chain != [] && chain[|chain| - 1].hash == hash) || hash !in earlier + HashesOf(chain)
    case Exit => false
  }

  function Next(chain: seq<Block>, msg: EngineMsg): seq<Block> {
    match msg
    case BlkAccepted(b) => chain + [b]
    case BlkReverted(hash) =>
      if chain != [] && chain[|chain| - 1].hash == hash then chain[..|chain| - 1] else chain
    case Exit => chain
  }

  ghost predicate FollowsAll(earlier: set<Hash>, chain: seq<Block>, msgs: seq<EngineMsg>)
    decreases |msgs|
  {
    msgs != [] ==> Follows(earlier, chain, msgs[0]) && FollowsAll(earlier, Next(chain, msgs[0]), msgs[1..])
  }

  function ChainAfter(chain: seq<Block>, msgs: seq<EngineMsg>): seq<Block>
    decreases |msgs|
  {
    if msgs == [] then chain else ChainAfter(Next(chain, msgs[0]), msgs[1..])
  }

  lemma {:induction false} NoExit(earlier: set<Hash>, chain: seq<Block>, msgs: seq<EngineMsg>)
    requires FollowsAll(earlier, chain, msgs)
    ensures Exit !in msgs
    decreases |msgs|
  {
    if msgs != [] {
      NoExit(earlier, Next(chain, msgs[0]), msgs[1..]);
    }
  }

  /** The blocks are new, distinct and create only episodes the contract covers. */
  ghost predicate ChainOk<S, C, R, E>(h: Host<S, C, R, E>, k: Contract<S>, earlier: set<Hash>, chain: seq<Block>)
    decreases |chain|
  {
    chain != [] ==>
      var b, rest := chain[|chain| - 1], chain[..|chain| - 1];
      b.hash !in earlier + HashesOf(rest) && AdmissibleTxs(h, k, b.txs) && ChainOk(h, k, earlier, rest)
  }

  /** The engine that was sent just a chain's blocks, in order. */
  function RunChain<S, C, R, E>(h: Host<S, C, R, E>, e: State<S, R>, chain: seq<Block>): State<S, R>
    decreases |chain|
  {
    if chain == [] then e else AcceptBlock(h, RunChain(h, e, chain[..|chain| - 1]), chain[|chain| - 1])
  }

  lemma AcceptsPush(chain: seq<Block>, b: Block)
    ensures Accepts(chain + [b]) == Accepts(chain) + [BlkAccepted(b)]
  {
  }

  lemma {:induction false} RunChainIsRun<S, C, R, E>(h: Host<S, C, R, E>, e: State<S, R>, chain: seq<Block>)
    ensures RunChain(h, e, chain) == Run(h, e, Accepts(chain))
    decreases |chain|
  {
    if chain != [] {
      var b, rest := chain[|chain| - 1], chain[..|chain| - 1];
      RunChainIsRun(h, e, rest);
      AcceptsPush(rest, b);
      assert rest + [b] == chain;
      RunConcat(h, e, Accepts(rest), [BlkAccepted(b)]);
      var e1 := Run(h, e, Accepts(rest));
      assert Run(h, e1, [BlkAccepted(b)]) == AcceptBlock(h, e1, b);
    }
  }

  lemma {:induction false} RunChainSound<S(!new), C(!new), R(!new), E(!new)>(
    h: Host<S, C, R, E>, k: Contract<S>, e: State<S, R>, chain: seq<Block>)
    requires Undoes(h.ep, k) && Sound(h, k, e) && ChainOk(h, k, e.revertMap.Keys, chain)
    ensures Sound(h, k, RunChain(h, e, chain))
    ensures RunChain(h, e, chain).revertMap.Keys == e.revertMap.Keys + HashesOf(chain)
    decreases |chain|
  {
    if chain != [] {
      RunChainSound(h, k, e, chain[..|chain| - 1]);
      AcceptSound(h, k, RunChain(h, e, chain[..|chain| - 1]), chain[|chain| - 1]);
    }
  }

  lemma AcceptSound<S(!new), C(!new), R(!new), E(!new)>(
    h: Host<S, C, R, E>, k: Contract<S>, e: State<S, R>, b: Block)
    requires Undoes(h.ep, k) && Sound(h, k, e) && AdmissibleTxs(h, k, b.txs)
    ensures Sound(h, k, AcceptBlock(h, e, b))
    ensures AcceptBlock(h, e, b).revertMap.Keys == e.revertMap.Keys + {b.hash}
  {
    RunTxsSound(h, k, Filter(e, b.daa), b, b.txs);
  }

  /** Taking the newest block away again leaves, of that block, only the filtering it triggered. */
  lemma TipReverted<S(!new), C(!new), R(!new), E(!new)>(
    h: Host<S, C, R, E>, k: Contract<S>, e: State<S, R>, chain: seq<Block>)
    requires Undoes(h.ep, k) && Sound(h, k, e) && ChainOk(h, k, e.revertMap.Keys, chain) && chain != []
    ensures
      var b, rest := chain[|chain| - 1], chain[..|chain| - 1];
      SameState(k, RevertBlock(h, RunChain(h, e, chain), b.hash), Filter(RunChain(h, e, rest), b.daa))
  {
    var b, rest := chain[|chain| - 1], chain[..|chain| - 1];
    RunChainSound(h, k, e, rest);
    BlockThenRevert(h, k, RunChain(h, e, rest), b);
  }

  /** The filtering clock, as long as filtering finds nobody too old. */

  function AtClock<S, R>(e: State<S, R>, clock: nat): State<S, R> {
    e.(nextFiltering := clock)
  }

  lemma {:induction false} TxsClock<S, C, R, E>(
    h: Host<S, C, R, E>, e: State<S, R>, clock: nat, b: Block, txs: seq<Tx>)
    ensures
      var (e', entries) := RunTxs(h, e, b, txs);
      RunTxs(h, AtClock(e, clock), b, txs) == (AtClock(e', clock), entries)
    decreases |txs|
  {
    if txs != [] {
      TxsClock(h, e, clock, b, txs[..|txs| - 1]);
      TxClock(h, RunTxs(h, e, b, txs[..|txs| - 1]).0, clock, b, txs[|txs| - 1]);
    }
  }

  lemma TxClock<S, C, R, E>(h: Host<S, C, R, E>, e: State<S, R>, clock: nat, b: Block, tx: Tx)
    ensures
      var (e', entry) := RunTx(h, e, b, tx);
      RunTx(h, AtClock(e, clock), b, tx) == (AtClock(e', clock), entry)
  {
  }

  lemma {:induction false} RevertEntriesClock<S, C, R, E>(
    h: Host<S, C, R, E>, e: State<S, R>, clock: nat, entries: seq<Entry>)
    ensures RevertEntries(h, AtClock(e, clock), entries) == AtClock(RevertEntries(h, e, entries), clock)
    decreases |entries|
  {
    if entries != [] {
      var last := |entries| - 1;
      assert RevertOne(h, AtClock(e, clock), entries[last].id) == AtClock(RevertOne(h, e, entries[last].id), clock);
      RevertEntriesClock(h, RevertOne(h, e, entries[last].id), clock, entries[..last]);
    }
  }

  /** Every live episode was created at score `lo` or later. */
  ghost predicate Since<S, R>(e: State<S, R>, lo: nat) {
    forall id :: id in e.creationTimes ==> lo <= e.creationTimes[id]
  }

  predicate Creates<S, C, R, E>(h: Host<S, C, R, E>, tx: Tx) {
    h.parse(tx.payload).Some? && h.parse(tx.payload).value.NewEpisode?
  }

  /** The block is at most a lifetime past `lo`, and not before it if it creates an episode. */
  ghost predicate BlockInWindow<S, C, R, E>(h: Host<S, C, R, E>, lo: nat, b: Block) {
    b.daa <= lo + EPISODE_LIFETIME && forall tx :: tx in b.txs && Creates(h, tx) ==> lo <= b.daa
  }

  ghost predicate InWindow<S, C, R, E>(h: Host<S, C, R, E>, lo: nat, msgs: seq<EngineMsg>) {
    forall m :: m in msgs && m.BlkAccepted? ==> BlockInWindow(h, lo, m.block)
  }

  /** Filtering that finds nobody too old only moves the clock. */
  lemma FilterMovesClock<S, R>(e: State<S, R>, lo: nat, daa: nat)
    requires Since(e, lo) && daa <= lo + EPISODE_LIFETIME
    ensures Filter(e, daa) == AtClock(e, NextFiltering(e.nextFiltering, daa))
  {
    assert PrunedBy(e, daa) == {};
    assert e.episodes - {} == e.episodes && e.creationTimes - {} == e.creationTimes;
  }

  lemma {:induction false} TxsSince<S, C, R, E>(
    h: Host<S, C, R, E>, e: State<S, R>, lo: nat, b: Block, txs: seq<Tx>)
    requires Since(e, lo) && forall tx :: tx in txs && Creates(h, tx) ==> lo <= b.daa
    ensures Since(RunTxs(h, e, b, txs).0, lo)
    decreases |txs|
  {
    if txs != [] {
      var tx, shorter := txs[|txs| - 1], txs[..|txs| - 1];
      TxsSince(h, e, lo, b, shorter);
      assert tx in txs && Creates(h, tx) ==> lo <= b.daa;
      TxSince(h, RunTxs(h, e, b, shorter).0, lo, b, tx);
    }
  }

  lemma TxSince<S, C, R, E>(h: Host<S, C, R, E>, e: State<S, R>, lo: nat, b: Block, tx: Tx)
    requires Since(e, lo) && (Creates(h, tx) ==> lo <= b.daa)
    ensures Since(RunTx(h, e, b, tx).0, lo)
  {
  }

  lemma {:induction false} RevertEntriesSince<S, C, R, E>(
    h: Host<S, C, R, E>, e: State<S, R>, lo: nat, entries: seq<Entry>)
    requires Since(e, lo)
    ensures Since(RevertEntries(h, e, entries), lo)
    decreases |entries|
  {
    if entries != [] {
      var last := |entries| - 1;
      RevertEntriesSince(h, RevertOne(h, e, entries[last].id), lo, entries[..last]);
    }
  }

  /** Inside the window the clock does not matter to anything but itself. */
  lemma AcceptClock<S, C, R, E>(h: Host<S, C, R, E>, e: State<S, R>, clock: nat, lo: nat, b: Block)
    requires Since(e, lo) && BlockInWindow(h, lo, b)
    ensures AtClock(AcceptBlock(h, AtClock(e, clock), b), 0) == AtClock(AcceptBlock(h, e, b), 0)
    ensures Since(AcceptBlock(h, e, b), lo)
  {
    FilterMovesClock(e, lo, b.daa);
    FilterMovesClock(AtClock(e, clock), lo, b.daa);
    TxsClock(h, e, NextFiltering(e.nextFiltering, b.daa), b, b.txs);
    TxsClock(h, e, NextFiltering(clock, b.daa), b, b.txs);
    TxsSince(h, Filter(e, b.daa), lo, b, b.txs);
  }

  lemma RevertClock<S, C, R, E>(h: Host<S, C, R, E>, e: State<S, R>, clock: nat, lo: nat, hash: Hash)
    requires Since(e, lo)
    ensures RevertBlock(h, AtClock(e, clock), hash) == AtClock(RevertBlock(h, e, hash), clock)
    ensures Since(RevertBlock(h, e, hash), lo)
  {
    if hash in e.revertMap {
      var e1 := e.(revertMap := e.revertMap - {hash});
      RevertEntriesClock(h, e1, clock, e.revertMap[hash]);
      RevertEntriesSince(h, e1, lo, e.revertMap[hash]);
    }
  }

  lemma {:induction false} RunChainSince<S, C, R, E>(h: Host<S, C, R, E>, e: State<S, R>, lo: nat, chain: seq<Block>)
    requires Since(e, lo) && forall b :: b in chain ==> BlockInWindow(h, lo, b)
    ensures Since(RunChain(h, e, chain), lo)
    decreases |chain|
  {
    if chain != [] {
      RunChainSince(h, e, lo, chain[..|chain| - 1]);
      AcceptClock(h, RunChain(h, e, chain[..|chain| - 1]), 0, lo, chain[|chain| - 1]);
    }
  }

  /** What a run inside the window keeps: the chain is good, and the engine agrees with the one that
      was sent the chain alone, up to sameness and the clock. */
  ghost predicate Determined<S, C, R, E>(
    h: Host<S, C, R, E>, k: Contract<S>, e0: State<S, R>, lo: nat, e: State<S, R>, chain: seq<Block>)
  {
    && Sound(h, k, e) && Since(e, lo)
    && ChainOk(h, k, e0.revertMap.Keys, chain) && (forall b :: b in chain ==> BlockInWindow(h, lo, b))
    && SameState(k, AtClock(e, 0), AtClock(RunChain(h, e0, chain), 0))
  }

  lemma AcceptDetermined<S(!new), C(!new), R(!new), E(!new)>(
    h: Host<S, C, R, E>, k: Contract<S>, e0: State<S, R>, lo: nat, e: State<S, R>, chain: seq<Block>, b: Block)
    requires Undoes(h.ep, k) && Sound(h, k, e0) && Since(e0, lo) && Determined(h, k, e0, lo, e, chain)
    requires b.hash !in e0.revertMap.Keys + HashesOf(chain)
    requires AdmissibleTxs(h, k, b.txs) && BlockInWindow(h, lo, b)
    ensures Determined(h, k, e0, lo, AcceptBlock(h, e, b), chain + [b])
  {
    RunChainSince(h, e0, lo, chain);
    AcceptSound(h, k, e, b);
    AcceptClock(h, e, 0, lo, b);
    AcceptAgrees(h, k, e, RunChain(h, e0, chain), lo, b);
    ChainExtended(h, k, e0, lo, chain, b);
  }

  lemma ChainExtended<S, C, R, E>(
    h: Host<S, C, R, E>, k: Contract<S>, e0: State<S, R>, lo: nat, chain: seq<Block>, b: Block)
    requires ChainOk(h, k, e0.revertMap.Keys, chain) && (forall c :: c in chain ==> BlockInWindow(h, lo, c))
    requires b.hash !in e0.revertMap.Keys + HashesOf(chain) && AdmissibleTxs(h, k, b.txs) && BlockInWindow(h, lo, b)
    ensures ChainOk(h, k, e0.revertMap.Keys, chain + [b]) && (forall c :: c in chain + [b] ==> BlockInWindow(h, lo, c))
    ensures RunChain(h, e0, chain + [b]) == AcceptBlock(h, RunChain(h, e0, chain), b)
  {
    assert (chain + [b])[..|chain|] == chain;
  }

  lemma AcceptAgrees<S(!new), C(!new), R(!new), E(!new)>(
    h: Host<S, C, R, E>, k: Contract<S>, e: State<S, R>, f: State<S, R>, lo: nat, b: Block)
    requires Undoes(h.ep, k) && Sound(h, k, e) && SameState(k, AtClock(e, 0), AtClock(f, 0))
    requires Since(e, lo) && Since(f, lo) && AdmissibleTxs(h, k, b.txs) && BlockInWindow(h, lo, b)
    ensures SameState(k, AtClock(AcceptBlock(h, e, b), 0), AtClock(AcceptBlock(h, f, b), 0))
  {
    AcceptClock(h, e, 0, lo, b);
    AcceptClock(h, f, 0, lo, b);
    StepRespects(h, k, AtClock(e, 0), AtClock(f, 0), BlkAccepted(b));
  }

  lemma TipDetermined<S(!new), C(!new), R(!new), E(!new)>(
    h: Host<S, C, R, E>, k: Contract<S>, e0: State<S, R>, lo: nat, e: State<S, R>, chain: seq<Block>)
    requires Undoes(h.ep, k) && Sound(h, k, e0) && Since(e0, lo) && Determined(h, k, e0, lo, e, chain) && chain != []
    ensures Determined(h, k, e0, lo, RevertBlock(h, e, chain[|chain| - 1].hash), chain[..|chain| - 1])
  {
    var b, rest := chain[|chain| - 1], chain[..|chain| - 1];
    var f := RunChain(h, e0, chain);
    assert b in chain && forall c :: c in rest ==> c in chain;
    RunChainSince(h, e0, lo, rest);
    RunChainSince(h, e0, lo, chain);
    RevertClock(h, e, 0, lo, b.hash);
    RevertClock(h, f, 0, lo, b.hash);
    StepSound(h, k, e, BlkReverted(b.hash));
    StepRespects(h, k, AtClock(e, 0), AtClock(f, 0), BlkReverted(b.hash));
    TipReverted(h, k, e0, chain);
    FilterMovesClock(RunChain(h, e0, rest), lo, b.daa);
    SameStateTransitive(k, AtClock(RevertBlock(h, e, b.hash), 0), AtClock(RevertBlock(h, f, b.hash), 0),
                        AtClock(RunChain(h, e0, rest), 0));
  }

  lemma UnknownDetermined<S(!new), C(!new), R(!new), E(!new)>(
    h: Host<S, C, R, E>, k: Contract<S>, e0: State<S, R>, lo: nat, e: State<S, R>, chain: seq<Block>, hash: Hash)
    requires Undoes(h.ep, k) && Sound(h, k, e0) && Determined(h, k, e0, lo, e, chain)
    requires hash !in e0.revertMap.Keys + HashesOf(chain)
    ensures RevertBlock(h, e, hash) == e
  {
    RunChainSound(h, k, e0, chain);
  }

  lemma {:induction false} RunDetermined<S(!new), C(!new), R(!new), E(!new)>(
    h: Host<S, C, R, E>, k: Contract<S>, e0: State<S, R>, lo: nat, e: State<S, R>, chain: seq<Block>,
    msgs: seq<EngineMsg>)
    requires Undoes(h.ep, k) && Sound(h, k, e0) && Since(e0, lo) && Determined(h, k, e0, lo, e, chain)
    requires FollowsAll(e0.revertMap.Keys, chain, msgs) && AdmissibleMsgs(h, k, msgs) && InWindow(h, lo, msgs)
    ensures Determined(h, k, e0, lo, Run(h, e, msgs), ChainAfter(chain, msgs))
    decreases |msgs|
  {
    if msgs != [] {
      assert msgs[0] in msgs && forall m :: m in msgs[1..] ==> m in msgs;
      match msgs[0] {
        case BlkAccepted(b) => AcceptDetermined(h, k, e0, lo, e, chain, b);
        case BlkReverted(hash) =>
          if chain != [] && chain[|chain| - 1].hash == hash {
            TipDetermined(h, k, e0, lo, e, chain);
          } else {
            UnknownDetermined(h, k, e0, lo, e, chain, hash);
          }
      }
      RunDetermined(h, k, e0, lo, Step(h, e, msgs[0]), Next(chain, msgs[0]), msgs[1..]);
    }
  }

  /** However often the chain was reorganised, and whatever blocks were reverted that the engine was
      never sent: it holds what it would hold had it been sent the blocks of the current chain alone,
      in order, as long as no accepted block is more than a lifetime past the oldest creation. What
      a reverted block leaves is at most a later filtering clock. */
  lemma ChainDetermines<S(!new), C(!new), R(!new), E(!new)>(
    h: Host<S, C, R, E>, k: Contract<S>, e0: State<S, R>, lo: nat, msgs: seq<EngineMsg>)
    requires Undoes(h.ep, k) && Sound(h, k, e0) && Since(e0, lo)
    requires FollowsAll(e0.revertMap.Keys, [], msgs) && AdmissibleMsgs(h, k, msgs) && InWindow(h, lo, msgs)
    ensures SameButClock(k, Run(h, e0, msgs), Run(h, e0, Accepts(ChainAfter([], msgs))))
  {
    SameStateReflexive(k, AtClock(e0, 0));
    RunDetermined(h, k, e0, lo, e0, [], msgs);
    RunChainIsRun(h, e0, ChainAfter([], msgs));
  }

  lemma InitiallyReady<S, C, R, E>(h: Host<S, C, R, E>, k: Contract<S>, lo: nat)
    ensures Sound(h, k, Initial<S, R>()) && Since(Initial<S, R>(), lo) && Initial<S, R>().revertMap.Keys == {}
  {
  }

  /** From an engine's start. */
  lemma CurrentChainDetermines<S(!new), C(!new), R(!new), E(!new)>(
    h: Host<S, C, R, E>, k: Contract<S>, lo: nat, msgs: seq<EngineMsg>)
    requires Undoes(h.ep, k) && FollowsAll({}, [], msgs) && AdmissibleMsgs(h, k, msgs) && InWindow(h, lo, msgs)
    ensures SameButClock(k, Run(h, Initial(), msgs), Run(h, Initial(), Accepts(ChainAfter([], msgs))))
  {
    InitiallyReady(h, k, lo);
    ChainDetermines(h, k, Initial(), lo, msgs);
  }
}
