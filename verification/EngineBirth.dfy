/** When the current chain determines an episode, exactly, from the creation of its last life: what an
    earlier life left behind does not matter. */
module EngineBirth {
  import opened Primitives
  import opened Episodes
  import opened EngineSpec
  import opened EngineFrame
  import opened EngineReorg
  import opened EngineSlices
  import opened EngineTransparency
  import opened EngineChain
  import opened EngineEpisodes
  import opened EngineLife

  /** The engine without what it remembers of the blocks in `past`. */
  function Recent<S, R>(e: State<S, R>, past: set<Hash>): State<S, R> {
    e.(revertMap := e.revertMap - past)
  }

  /** Agreement on everything but the clock and what is remembered of the blocks in `past`. */
  ghost predicate SameSince<S, R>(k: Contract<S>, past: set<Hash>, e: State<S, R>, f: State<S, R>) {
    SameState(k, AtClock(Recent(e, past), 0), AtClock(Recent(f, past), 0))
  }

  lemma TxMemory<S, C, R, E>(h: Host<S, C, R, E>, e: State<S, R>, m: map<Hash, seq<Entry>>, b: Block, tx: Tx)
    ensures
      var (e', entry) := RunTx(h, e, b, tx);
      RunTx(h, e.(revertMap := m), b, tx) == (e'.(revertMap := m), entry)
  {
  }

  lemma {:induction false} TxsMemory<S, C, R, E>(
    h: Host<S, C, R, E>, e: State<S, R>, m: map<Hash, seq<Entry>>, b: Block, txs: seq<Tx>)
    ensures
      var (e', entries) := RunTxs(h, e, b, txs);
      RunTxs(h, e.(revertMap := m), b, txs) == (e'.(revertMap := m), entries)
    decreases |txs|
  {
    if txs != [] {
      TxsMemory(h, e, m, b, txs[..|txs| - 1]);
      TxMemory(h, RunTxs(h, e, b, txs[..|txs| - 1]).0, m, b, txs[|txs| - 1]);
    }
  }

  lemma AcceptRecent<S, C, R, E>(h: Host<S, C, R, E>, e: State<S, R>, past: set<Hash>, b: Block)
    requires b.hash !in past
    ensures AcceptBlock(h, Recent(e, past), b) == Recent(AcceptBlock(h, e, b), past)
  {
    var e0 := Filter(e, b.daa);
    TxsFrame(h, e0, b, b.txs);
    TxsMemory(h, e0, e.revertMap - past, b, b.txs);
    var entries := RunTxs(h, e0, b, b.txs).1;
    assert (e.revertMap - past)[b.hash := entries] == e.revertMap[b.hash := entries] - past;
  }

  lemma {:induction false} AcceptsRecent<S, C, R, E>(
    h: Host<S, C, R, E>, e: State<S, R>, past: set<Hash>, blocks: seq<Block>)
    requires forall b :: b in blocks ==> b.hash !in past
    ensures Run(h, Recent(e, past), Accepts(blocks)) == Recent(Run(h, e, Accepts(blocks)), past)
    decreases |blocks|
  {
    if blocks != [] {
      assert Accepts(blocks)[0] == BlkAccepted(blocks[0]) && Accepts(blocks)[1..] == Accepts(blocks[1..]);
      AcceptRecent(h, e, past, blocks[0]);
      AcceptsRecent(h, AcceptBlock(h, e, blocks[0]), past, blocks[1..]);
    }
  }

  lemma {:induction false} ChainIsNew(earlier: set<Hash>, chain: seq<Block>, msgs: seq<EngineMsg>)
    requires FollowsAll(earlier, chain, msgs) && forall b :: b in chain ==> b.hash !in earlier
    ensures forall b :: b in ChainAfter(chain, msgs) ==> b.hash !in earlier
    decreases |msgs|
  {
    if msgs != [] {
      ChainIsNew(earlier, Next(chain, msgs[0]), msgs[1..]);
    }
  }

  /** Two engines of one live episode that agree but for old memories: the run of one, and the chain
      alone sent to the other. */
  lemma TwoStarts<S(!new), C(!new), R(!new), E(!new)>(
    h: Host<S, C, R, E>, k: Contract<S>, e: State<S, R>, f: State<S, R>, past: set<Hash>, msgs: seq<EngineMsg>)
    requires Undoes(h.ep, k) && Sound(h, k, e) && Sound(h, k, f) && SameSince(k, past, e, f)
    requires past <= e.revertMap.Keys && FollowsAll(e.revertMap.Keys, [], msgs) && AdmissibleMsgs(h, k, msgs)
    requires Spared(h, e, msgs) && Spared(h, f, Accepts(ChainAfter([], msgs)))
    ensures SameSince(k, past, Run(h, e, msgs), Run(h, f, Accepts(ChainAfter([], msgs))))
  {
    var top, chain := Latest(Accepted(msgs)), ChainAfter([], msgs);
    var e1, f1 := AtClock(e, top), AtClock(f, top);
    ChainOfAccepted([], msgs);
    AcceptedOfAccepts(chain);
    SparedRun(h, e, top, msgs);
    SparedRun(h, f, top, Accepts(chain));
    LateAgrees(h, k, e, top, msgs);
    ChainIsNew(e.revertMap.Keys, [], msgs);
    AcceptsRecent(h, e1, past, chain);
    AcceptsRecent(h, f1, past, chain);
    BothChains(h, k, Recent(e1, past), Recent(f1, past), msgs);
    Joined(k, past, top, Run(h, e, msgs), Run(h, e1, Accepts(chain)), Run(h, f, Accepts(chain)));
  }

  lemma BothChains<S(!new), C(!new), R(!new), E(!new)>(
    h: Host<S, C, R, E>, k: Contract<S>, e: State<S, R>, f: State<S, R>, msgs: seq<EngineMsg>)
    requires Undoes(h.ep, k) && Sound(h, k, e) && SameState(k, e, f) && AdmissibleMsgs(h, k, msgs)
    ensures SameState(k, Run(h, e, Accepts(ChainAfter([], msgs))), Run(h, f, Accepts(ChainAfter([], msgs))))
  {
    var chain := ChainAfter([], msgs);
    ChainOfAccepted([], msgs);
    AcceptedWere(msgs);
    AcceptedWere(Accepts(chain));
    AcceptedOfAccepts(chain);
    forall m | m in Accepts(chain) && m.BlkAccepted? ensures AdmissibleTxs(h, k, m.block.txs) {
      assert m == BlkAccepted(m.block) && BlkAccepted(m.block) in msgs;
    }
    RunRespects(h, k, e, f, Accepts(chain));
  }

  lemma Joined<S(!new), R>(
    k: Contract<S>, past: set<Hash>, top: nat, e: State<S, R>, chain: State<S, R>, f: State<S, R>)
    requires Equivalence(k) && SameState(k, AtClock(e, top), chain)
    requires SameState(k, Recent(chain, past), Recent(AtClock(f, top), past))
    ensures SameSince(k, past, e, f)
  {
    SameStateTransitive(k, Recent(AtClock(e, top), past), Recent(chain, past), Recent(AtClock(f, top), past));
  }

  /** An episode that is live, and not created again, in two engines that agree on it but for past
      memories and the clock: exactly when it is live after the run of one and after the other was sent
      the chain alone, and that they then still agree on it. */
  lemma LifeDeterminedIff<S(!new), C(!new), R(!new), E(!new)>(
    h: Host<S, C, R, E>, k: Contract<S>, e: State<S, R>, f: State<S, R>, past: set<Hash>, msgs: seq<EngineMsg>,
    id: EpisodeId)
    requires Undoes(h.ep, k) && Sound(h, k, Slice(e, id)) && Sound(h, k, Slice(f, id))
    requires id in e.episodes && id in e.creationTimes && SameSince(k, past, Slice(e, id), Slice(f, id))
    requires past <= e.revertMap.Keys && FollowsAll(e.revertMap.Keys, [], msgs) && NeverCreated(h, msgs, id)
    ensures
      var actual, alone := Run(h, e, msgs), Run(h, f, Accepts(ChainAfter([], msgs)));
      && (id in actual.episodes <==> Outlives(e.creationTimes[id], e.nextFiltering, Accepted(msgs)))
      && (id in alone.episodes <==> Outlives(e.creationTimes[id], f.nextFiltering, ChainAfter([], msgs)))
      && (id in actual.episodes && id in alone.episodes ==> SameSince(k, past, Slice(actual, id), Slice(alone, id)))
  {
    var mine, chain, creation := SliceMsgs(h, msgs, id), ChainAfter([], msgs), e.creationTimes[id];
    var e1, f1 := Slice(e, id), Slice(f, id);
    assert SliceChain(h, [], id) == [];
    assert e1.revertMap.Keys == e.revertMap.Keys;
    SliceFollowsAll(h, e.revertMap.Keys, [], msgs, id);
    SliceUncreating(h, msgs, id);
    EpisodesDoNotInterfere(h, e, msgs, id);
    EpisodesDoNotInterfere(h, f, Accepts(chain), id);
    SliceAccepts(h, chain, id);
    AcceptedSlice(h, msgs, id);
    OutlivesSlice(h, creation, e.nextFiltering, Accepted(msgs), id);
    OutlivesSlice(h, creation, f.nextFiltering, chain, id);
    assert id in AtClock(Recent(e1, past), 0).episodes;
    LivesIff(h, k, e1, mine, id);
    AloneLivesIff(h, f1, mine, id);
    if id in Run(h, e1, mine).episodes && id in Run(h, f1, Accepts(ChainAfter([], mine))).episodes {
      UncreatingAdmissible(h, k, mine);
      TwoStarts(h, k, e1, f1, past, mine);
    }
  }

  lemma AloneLivesIff<S, C, R, E>(h: Host<S, C, R, E>, f: State<S, R>, msgs: seq<EngineMsg>, id: EpisodeId)
    requires Matched(f) && Alone(f, id) && id in f.episodes && Uncreating(h, msgs)
    ensures
      var chain := ChainAfter([], msgs);
      && (id in Run(h, f, Accepts(chain)).episodes <==> Outlives(f.creationTimes[id], f.nextFiltering, chain))
      && (Outlives(f.creationTimes[id], f.nextFiltering, chain) ==> Spared(h, f, Accepts(chain)))
  {
    var creation, chain := f.creationTimes[id], ChainAfter([], msgs);
    ChainUncreating(h, msgs);
    AcceptedOfAccepts(chain);
    if Outlives(creation, f.nextFiltering, chain) {
      SparedWhenOutlived(h, f, Accepts(chain), id, creation);
      AcceptsKeep(h, f, chain, id);
    } else {
      LostWhenTooOld(h, f, Accepts(chain), id, creation);
    }
  }

  /** A block that creates an episode makes the same of it in every engine in which it is not live. */

  ghost predicate AllCreatedAt<S, R>(e: State<S, R>, daa: nat) {
    forall id :: id in e.creationTimes ==> e.creationTimes[id] == daa
  }

  lemma TxCreatedAt<S, C, R, E>(h: Host<S, C, R, E>, e: State<S, R>, b: Block, tx: Tx)
    requires AllCreatedAt(e, b.daa)
    ensures AllCreatedAt(RunTx(h, e, b, tx).0, b.daa)
  {
  }

  lemma {:induction false} TxsCreatedAt<S, C, R, E>(h: Host<S, C, R, E>, e: State<S, R>, b: Block, txs: seq<Tx>)
    requires AllCreatedAt(e, b.daa)
    ensures AllCreatedAt(RunTxs(h, e, b, txs).0, b.daa)
    decreases |txs|
  {
    if txs != [] {
      TxsCreatedAt(h, e, b, txs[..|txs| - 1]);
      TxCreatedAt(h, RunTxs(h, e, b, txs[..|txs| - 1]).0, b, txs[|txs| - 1]);
    }
  }

  /** An engine without episodes accepts a block as a new one does, but for memories and the clock. */
  lemma AcceptFromNothing<S, C, R, E>(h: Host<S, C, R, E>, e: State<S, R>, b: Block)
    requires Filter(e, b.daa).episodes == map[] && Filter(e, b.daa).creationTimes == map[]
    ensures
      var (made, entries) := RunTxs(h, Initial<S, R>(), b, b.txs);
      AcceptBlock(h, e, b) ==
      State(made.episodes, e.revertMap[b.hash := entries], NextFiltering(e.nextFiltering, b.daa), made.creationTimes)
  {
    var clock := NextFiltering(e.nextFiltering, b.daa);
    var (made, entries) := RunTxs(h, Initial<S, R>(), b, b.txs);
    assert Filter(e, b.daa) == AtClock(Initial<S, R>().(revertMap := e.revertMap), clock);
    TxsMemory(h, Initial(), e.revertMap, b, b.txs);
    TxsClock(h, Initial().(revertMap := e.revertMap), clock, b, b.txs);
  }

  lemma SliceOfAccept<S, C, R, E>(h: Host<S, C, R, E>, e: State<S, R>, b: Block, id: EpisodeId)
    ensures Slice(AcceptBlock(h, e, b), id) == AcceptBlock(h, Slice(e, id), SliceBlock(h, b, id))
  {
    var msgs := [BlkAccepted(b)];
    assert msgs[1..] == [] && SliceMsgs(h, msgs, id) == [BlkAccepted(SliceBlock(h, b, id))];
    assert [BlkAccepted(SliceBlock(h, b, id))][1..] == [];
    EpisodesDoNotInterfere(h, e, msgs, id);
    assert Run(h, AcceptBlock(h, e, b), []) == AcceptBlock(h, e, b);
    var mine := SliceBlock(h, b, id);
    assert Run(h, AcceptBlock(h, Slice(e, id), mine), []) == AcceptBlock(h, Slice(e, id), mine);
  }

  lemma NotLiveSlice<S, R>(e: State<S, R>, daa: nat, id: EpisodeId)
    requires Matched(Slice(e, id)) && id !in Filter(e, daa).episodes
    ensures Filter(Slice(e, id), daa).episodes == map[] && Filter(Slice(e, id), daa).creationTimes == map[]
  {
    SliceFilter(e, daa, id);
  }

  lemma BornAlike<S(!new), C(!new), R(!new), E(!new)>(
    h: Host<S, C, R, E>, k: Contract<S>, e: State<S, R>, f: State<S, R>, b: Block, id: EpisodeId)
    requires Undoes(h.ep, k) && Matched(Slice(e, id)) && Matched(Slice(f, id))
    requires id !in Filter(e, b.daa).episodes && id !in Filter(f, b.daa).episodes
    requires AdmissibleTxs(h, k, TxsOf(h, b.txs, id)) && e.revertMap.Keys == f.revertMap.Keys
    ensures
      var e1, f1 := Slice(AcceptBlock(h, e, b), id), Slice(AcceptBlock(h, f, b), id);
      Sound(h, k, e1) && Sound(h, k, f1) && SameSince(k, e.revertMap.Keys, e1, f1) && AllCreatedAt(e1, b.daa)
  {
    var mine := SliceBlock(h, b, id);
    var (made, entries) := RunTxs(h, Initial<S, R>(), mine, mine.txs);
    MadeSound(h, k, mine);
    MadeOf(h, e, b, id);
    MadeOf(h, f, b, id);
    OnlyRecent(Slice(e, id).revertMap, Slice(f, id).revertMap, b.hash, entries);
    MadeAlike(h, k, made, Slice(AcceptBlock(h, e, b), id), Slice(AcceptBlock(h, f, b), id), e.revertMap.Keys);
  }

  lemma MadeOf<S, C, R, E>(h: Host<S, C, R, E>, e: State<S, R>, b: Block, id: EpisodeId)
    requires Matched(Slice(e, id)) && id !in Filter(e, b.daa).episodes
    ensures
      var mine := SliceBlock(h, b, id);
      var (made, entries) := RunTxs(h, Initial<S, R>(), mine, mine.txs);
      Slice(AcceptBlock(h, e, b), id) ==
      State(made.episodes, Slice(e, id).revertMap[b.hash := entries], NextFiltering(e.nextFiltering, b.daa),
            made.creationTimes)
  {
    SliceOfAccept(h, e, b, id);
    NotLiveSlice(e, b.daa, id);
    AcceptFromNothing(h, Slice(e, id), SliceBlock(h, b, id));
  }

  lemma MadeSound<S(!new), C(!new), R(!new), E(!new)>(h: Host<S, C, R, E>, k: Contract<S>, b: Block)
    requires Undoes(h.ep, k) && AdmissibleTxs(h, k, b.txs)
    ensures
      var made := RunTxs(h, Initial<S, R>(), b, b.txs).0;
      Sound(h, k, made) && AllCreatedAt(made, b.daa)
  {
    TxsCreatedAt(h, Initial(), b, b.txs);
    assert Sound(h, k, Initial<S, R>());
    RunTxsSound(h, k, Initial(), b, b.txs);
  }

  lemma OnlyRecent(m: map<Hash, seq<Entry>>, n: map<Hash, seq<Entry>>, hash: Hash, entries: seq<Entry>)
    requires m.Keys == n.Keys
    ensures m[hash := entries] - m.Keys == n[hash := entries] - m.Keys
  {
  }

  lemma MadeAlike<S(!new), C(!new), R(!new), E(!new)>(
    h: Host<S, C, R, E>, k: Contract<S>, made: State<S, R>, e: State<S, R>, f: State<S, R>, past: set<Hash>)
    requires Equivalence(k) && Sound(h, k, made)
    requires e.episodes == made.episodes == f.episodes && e.creationTimes == made.creationTimes == f.creationTimes
    requires e.revertMap - past == f.revertMap - past
    ensures Sound(h, k, e) && Sound(h, k, f) && SameSince(k, past, e, f)
  {
    SameStateReflexive(k, AtClock(Recent(e, past), 0));
  }

  /** From the creation of its last life on, in an engine that reached any state before and in one that
      was sent the chain alone: whichever lives the episode had in either, if it is live in neither when
      the block comes that creates it, and not created again. It is live in the end exactly if it
      outlived the filterings that all accepted blocks, or the chain's blocks, triggered since. */
  lemma CreatedDeterminedIff<S(!new), C(!new), R(!new), E(!new)>(
    h: Host<S, C, R, E>, k: Contract<S>, e: State<S, R>, f: State<S, R>, b: Block, msgs: seq<EngineMsg>, id: EpisodeId)
    requires Undoes(h.ep, k) && Matched(Slice(e, id)) && Matched(Slice(f, id))
    requires e.revertMap.Keys == f.revertMap.Keys && AdmissibleTxs(h, k, TxsOf(h, b.txs, id))
    requires id !in Filter(e, b.daa).episodes && id !in Filter(f, b.daa).episodes
    requires id in AcceptBlock(h, e, b).episodes
    requires FollowsAll(e.revertMap.Keys + {b.hash}, [], msgs) && NeverCreated(h, msgs, id)
    ensures
      var actual := Run(h, AcceptBlock(h, e, b), msgs);
      var alone := Run(h, AcceptBlock(h, f, b), Accepts(ChainAfter([], msgs)));
      var clock, clock' := NextFiltering(e.nextFiltering, b.daa), NextFiltering(f.nextFiltering, b.daa);
      && (id in actual.episodes <==> Outlives(b.daa, clock, Accepted(msgs)))
      && (id in alone.episodes <==> Outlives(b.daa, clock', ChainAfter([], msgs)))
      && (id in actual.episodes && id in alone.episodes ==>
            SameSince(k, e.revertMap.Keys, Slice(actual, id), Slice(alone, id)))
  {
    var e1, f1 := AcceptBlock(h, e, b), AcceptBlock(h, f, b);
    BornAlike(h, k, e, f, b, id);
    Accepting(h, e, b);
    Accepting(h, f, b);
    CreatedThen(h, k, e1, id, b.daa);
    LifeDeterminedIff(h, k, e1, f1, e.revertMap.Keys, msgs, id);
  }

  lemma Accepting<S, C, R, E>(h: Host<S, C, R, E>, e: State<S, R>, b: Block)
    ensures AcceptBlock(h, e, b).revertMap.Keys == e.revertMap.Keys + {b.hash}
    ensures AcceptBlock(h, e, b).nextFiltering == NextFiltering(e.nextFiltering, b.daa)
  {
    TxsFrame(h, Filter(e, b.daa), b, b.txs);
  }

  lemma CreatedThen<S, C, R, E>(h: Host<S, C, R, E>, k: Contract<S>, e: State<S, R>, id: EpisodeId, daa: nat)
    requires Sound(h, k, Slice(e, id)) && AllCreatedAt(Slice(e, id), daa) && id in e.episodes
    ensures id in e.creationTimes && e.creationTimes[id] == daa
  {
    assert id in Slice(e, id).episodes && id in Slice(e, id).creationTimes;
  }

  /** Chains on top of chains. */

  ghost predicate Chained(earlier: set<Hash>, chain: seq<Block>)
    decreases |chain|
  {
    chain != [] ==>
      var rest := chain[..|chain| - 1];
      chain[|chain| - 1].hash !in earlier + HashesOf(rest) && Chained(earlier, rest)
  }

  lemma StepKeys<S, C, R, E>(
    h: Host<S, C, R, E>, e: State<S, R>, earlier: set<Hash>, chain: seq<Block>, msg: EngineMsg)
    requires Chained(earlier, chain) && Follows(earlier, chain, msg)
    requires e.revertMap.Keys == earlier + HashesOf(chain)
    ensures Chained(earlier, Next(chain, msg))
    ensures Step(h, e, msg).revertMap.Keys == earlier + HashesOf(Next(chain, msg))
  {
    match msg {
      case BlkAccepted(b) =>
        assert (chain + [b])[..|chain|] == chain;
        Accepting(h, e, b);
      case BlkReverted(hash) =>
        if hash in e.revertMap {
          RevertEntriesFrame(h, e.(revertMap := e.revertMap - {hash}), e.revertMap[hash]);
        }
    }
  }

  /** What an engine remembers are the blocks of its chain. */
  lemma {:induction false} RunKeys<S, C, R, E>(
    h: Host<S, C, R, E>, e: State<S, R>, earlier: set<Hash>, chain: seq<Block>, msgs: seq<EngineMsg>)
    requires Chained(earlier, chain) && FollowsAll(earlier, chain, msgs)
    requires e.revertMap.Keys == earlier + HashesOf(chain)
    ensures Run(h, e, msgs).revertMap.Keys == earlier + HashesOf(ChainAfter(chain, msgs))
    decreases |msgs|
  {
    if msgs != [] {
      StepKeys(h, e, earlier, chain, msgs[0]);
      RunKeys(h, Step(h, e, msgs[0]), earlier, Next(chain, msgs[0]), msgs[1..]);
    }
  }

  lemma {:induction false} ChainKeys<S, C, R, E>(h: Host<S, C, R, E>, e: State<S, R>, chain: seq<Block>)
    ensures RunChain(h, e, chain).revertMap.Keys == e.revertMap.Keys + HashesOf(chain)
    decreases |chain|
  {
    if chain != [] {
      ChainKeys(h, e, chain[..|chain| - 1]);
      Accepting(h, RunChain(h, e, chain[..|chain| - 1]), chain[|chain| - 1]);
    }
  }

  lemma {:induction false} HashesTogether(a: seq<Block>, b: seq<Block>)
    ensures HashesOf(a + b) == HashesOf(a) + HashesOf(b)
    decreases |b|
  {
    if b == [] {
      assert a + b == a;
    } else {
      assert (a + b)[..|a + b| - 1] == a + b[..|b| - 1];
      HashesTogether(a, b[..|b| - 1]);
    }
  }

  /** Messages that leave the blocks below alone only build on them. */
  lemma {:induction false} BuildsOn(base: seq<Block>, chain: seq<Block>, msgs: seq<EngineMsg>)
    requires FollowsAll(HashesOf(base), chain, msgs)
    ensures FollowsAll({}, base + chain, msgs) && ChainAfter(base + chain, msgs) == base + ChainAfter(chain, msgs)
    decreases |msgs|
  {
    if msgs != [] {
      BuildsOnOne(base, chain, msgs[0]);
      BuildsOn(base, Next(chain, msgs[0]), msgs[1..]);
    }
  }

  lemma TipListed(chain: seq<Block>)
    ensures chain != [] ==> chain[|chain| - 1].hash in HashesOf(chain)
  {
  }

  lemma BuildsOnOne(base: seq<Block>, chain: seq<Block>, msg: EngineMsg)
    requires Follows(HashesOf(base), chain, msg)
    ensures Follows({}, base + chain, msg) && Next(base + chain, msg) == base + Next(chain, msg)
  {
    HashesTogether(base, chain);
    TipListed(base);
    match msg {
      case BlkAccepted(b) => assert base + chain + [b] == base + (chain + [b]);
      case BlkReverted(hash) =>
        if chain != [] && chain[|chain| - 1].hash == hash {
          assert (base + chain)[..|base + chain| - 1] == base + chain[..|chain| - 1];
        } else if chain == [] {
          assert base + chain == base;
        } else {
          assert (base + chain)[|base + chain| - 1] == chain[|chain| - 1];
        }
    }
  }

  lemma {:induction false} FollowsOn(earlier: set<Hash>, chain: seq<Block>, a: seq<EngineMsg>, b: seq<EngineMsg>)
    requires FollowsAll(earlier, chain, a) && FollowsAll(earlier, ChainAfter(chain, a), b)
    ensures FollowsAll(earlier, chain, a + b)
    ensures ChainAfter(chain, a + b) == ChainAfter(ChainAfter(chain, a), b)
    decreases |a|
  {
    if a == [] {
      assert a + b == b;
    } else {
      assert (a + b)[0] == a[0] && (a + b)[1..] == a[1..] + b;
      FollowsOn(earlier, Next(chain, a[0]), a[1..], b);
    }
  }

  /** The chain after messages, a block, and messages that leave that block and those below alone. */
  lemma ChainInThree(before: seq<EngineMsg>, b: Block, after: seq<EngineMsg>)
    requires FollowsAll({}, [], before) && b.hash !in HashesOf(ChainAfter([], before))
    requires FollowsAll(HashesOf(ChainAfter([], before)) + {b.hash}, [], after)
    ensures FollowsAll({}, [], before + [BlkAccepted(b)] + after)
    ensures ChainAfter([], before + [BlkAccepted(b)] + after) == ChainAfter([], before) + [b] + ChainAfter([], after)
  {
    var base, first := ChainAfter([], before), before + [BlkAccepted(b)];
    assert [BlkAccepted(b)][1..] == [];
    assert FollowsAll({}, base + [b], []) && ChainAfter(base + [b], []) == base + [b];
    assert Follows({}, base, BlkAccepted(b));
    assert FollowsAll({}, base, [BlkAccepted(b)]) && ChainAfter(base, [BlkAccepted(b)]) == base + [b];
    FollowsOn({}, [], before, [BlkAccepted(b)]);
    assert (base + [b])[..|base|] == base;
    BuildsOn(base + [b], [], after);
    assert base + [b] + [] == base + [b];
    FollowsOn({}, [], first, after);
  }

  /** From an engine's start: the messages before the block that begins the last life, and after it. */
  ghost predicate LastLife<S, C, R, E>(
    h: Host<S, C, R, E>, k: Contract<S>, before: seq<EngineMsg>, b: Block, after: seq<EngineMsg>, id: EpisodeId)
  {
    var e, f := Run(h, Initial<S, R>(), before), Run(h, Initial<S, R>(), Accepts(ChainAfter([], before)));
    && FollowsAll({}, [], before) && b.hash !in HashesOf(ChainAfter([], before))
    && FollowsAll(HashesOf(ChainAfter([], before)) + {b.hash}, [], after) && NeverCreated(h, after, id)
    && AdmissibleTxs(h, k, TxsOf(h, b.txs, id))
    && id !in Filter(e, b.daa).episodes && id !in Filter(f, b.daa).episodes && id in AcceptBlock(h, e, b).episodes
  }

  /** However often the chain was reorganised before and after, at any scores. */
  lemma LastLifeDeterminedIff<S(!new), C(!new), R(!new), E(!new)>(
    h: Host<S, C, R, E>, k: Contract<S>, before: seq<EngineMsg>, b: Block, after: seq<EngineMsg>, id: EpisodeId)
    requires Undoes(h.ep, k) && LastLife(h, k, before, b, after, id)
    ensures
      var e, f := Run(h, Initial(), before), Run(h, Initial(), Accepts(ChainAfter([], before)));
      var msgs := before + [BlkAccepted(b)] + after;
      var actual, alone := Run(h, Initial(), msgs), Run(h, Initial(), Accepts(ChainAfter([], msgs)));
      && (id in actual.episodes <==> Outlives(b.daa, NextFiltering(e.nextFiltering, b.daa), Accepted(after)))
      && (id in alone.episodes <==> Outlives(b.daa, NextFiltering(f.nextFiltering, b.daa), ChainAfter([], after)))
      && (id in actual.episodes && id in alone.episodes ==>
            SameSince(k, HashesOf(ChainAfter([], before)), Slice(actual, id), Slice(alone, id)))
  {
    var e, f := Run(h, Initial(), before), Run(h, Initial(), Accepts(ChainAfter([], before)));
    ReachedAlike(h, before, id);
    CreatedDeterminedIff(h, k, e, f, b, after, id);
    RunsInThree(h, before, b, after);
  }

  lemma RunsInThree<S, C, R, E>(h: Host<S, C, R, E>, before: seq<EngineMsg>, b: Block, after: seq<EngineMsg>)
    requires FollowsAll({}, [], before) && b.hash !in HashesOf(ChainAfter([], before))
    requires FollowsAll(HashesOf(ChainAfter([], before)) + {b.hash}, [], after)
    ensures
      var msgs, base := before + [BlkAccepted(b)] + after, ChainAfter([], before);
      && Run(h, Initial(), msgs) == Run(h, AcceptBlock(h, Run(h, Initial(), before), b), after)
      && Run(h, Initial(), Accepts(ChainAfter([], msgs))) ==
         Run(h, AcceptBlock(h, Run(h, Initial(), Accepts(base)), b), Accepts(ChainAfter([], after)))
  {
    var base, top := ChainAfter([], before), ChainAfter([], after);
    ChainInThree(before, b, after);
    NoExit({}, [], before);
    RunInThree(h, before, b, after);
    AcceptsInThree(base, b, top);
    RunInThree(h, Accepts(base), b, Accepts(top));
  }

  lemma AcceptsInThree(base: seq<Block>, b: Block, top: seq<Block>)
    ensures Accepts(base + [b] + top) == Accepts(base) + [BlkAccepted(b)] + Accepts(top)
    ensures Exit !in Accepts(base)
  {
  }

  lemma ReachedAlike<S, C, R, E>(h: Host<S, C, R, E>, before: seq<EngineMsg>, id: EpisodeId)
    requires FollowsAll({}, [], before)
    ensures
      var base := ChainAfter([], before);
      var e, f := Run(h, Initial<S, R>(), before), Run(h, Initial<S, R>(), Accepts(base));
      && e.revertMap.Keys == f.revertMap.Keys == HashesOf(base)
      && Matched(Slice(e, id)) && Matched(Slice(f, id))
  {
    RunKeys(h, Initial(), {}, [], before);
    RunChainIsRun(h, Initial(), ChainAfter([], before));
    ChainKeys(h, Initial(), ChainAfter([], before));
    RunMatched(h, Initial(), before);
    RunMatched(h, Initial(), Accepts(ChainAfter([], before)));
  }

  lemma RunInThree<S, C, R, E>(h: Host<S, C, R, E>, before: seq<EngineMsg>, b: Block, after: seq<EngineMsg>)
    requires Exit !in before
    ensures Run(h, Initial(), before + [BlkAccepted(b)] + after) ==
            Run(h, AcceptBlock(h, Run(h, Initial(), before), b), after)
  {
    assert before + [BlkAccepted(b)] + after == before + ([BlkAccepted(b)] + after);
    RunConcat(h, Initial(), before, [BlkAccepted(b)] + after);
    assert ([BlkAccepted(b)] + after)[1..] == after;
  }
}
