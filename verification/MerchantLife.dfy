/** When the current chain determines a live merchant and its database, exactly: at any scores. */
module MerchantLife {
  import opened Episodes
  import opened EngineSpec
  import opened EngineReorg
  import opened EngineTransparency
  import opened EngineChain
  import opened EngineLife
  import opened EngineBirth
  import opened Merchant
  import opened MerchantInvariants
  import opened MerchantUndo
  import opened MerchantEngine
  import opened MerchantReorgs

  /** Where nothing is created nothing is loaded, and the engine runs as if it had no database. */

  lemma {:induction false} TxsIgnoreTables(d: Desk, x: Shop, b: Block, txs: seq<Tx>)
    requires forall tx :: tx in txs ==> !Creates(AnyHost(d), tx)
    ensures
      var (x', entries) := ShopTxs(d, x, b, txs);
      RunTxs(AnyHost(d), x.engine, b, txs) == (x'.engine, entries)
    decreases |txs|
  {
    if txs != [] {
      var tx, shorter := txs[|txs| - 1], txs[..|txs| - 1];
      TxsIgnoreTables(d, x, b, shorter);
      assert tx in txs && !Creates(AnyHost(d), tx);
      TxAnyTables(d, ShopTxs(d, x, b, shorter).0, b, tx);
    }
  }

  lemma {:induction false} RevertsIgnoreTables(d: Desk, x: Shop, entries: seq<Entry>)
    ensures ShopRevertEntries(d, x, entries).engine == RevertEntries(AnyHost(d), x.engine, entries)
    decreases |entries|
  {
    if entries != [] {
      var last := |entries| - 1;
      RevertOneAnyTables(d, x.engine, x.tables, entries[last].id);
      RevertsIgnoreTables(d, ShopRevertOne(d, x, entries[last].id), entries[..last]);
    }
  }

  lemma StepIgnoresTables(d: Desk, x: Shop, msg: EngineMsg)
    requires !msg.Exit? && (msg.BlkAccepted? ==> forall tx :: tx in msg.block.txs ==> !Creates(AnyHost(d), tx))
    ensures ShopStep(d, x, msg).engine == Step(AnyHost(d), x.engine, msg)
  {
    match msg {
      case BlkAccepted(b) => TxsIgnoreTables(d, x.(engine := Filter(x.engine, b.daa)), b, b.txs);
      case BlkReverted(hash) =>
        if hash in x.engine.revertMap {
          var x1 := x.(engine := x.engine.(revertMap := x.engine.revertMap - {hash}));
          RevertsIgnoreTables(d, x1, x.engine.revertMap[hash]);
        }
    }
  }

  lemma {:induction false} RunIgnoresTables(d: Desk, x: Shop, msgs: seq<EngineMsg>)
    requires Uncreating(AnyHost(d), msgs)
    ensures ShopRun(d, x, msgs).engine == Run(AnyHost(d), x.engine, msgs)
    decreases |msgs|
  {
    if msgs == [] || msgs[0].Exit? {
    } else {
      assert msgs[0] in msgs && forall msg :: msg in msgs[1..] ==> msg in msgs;
      StepIgnoresTables(d, x, msgs[0]);
      RunIgnoresTables(d, ShopStep(d, x, msgs[0]), msgs[1..]);
    }
  }

  lemma UncreatingCreatesOnly(d: Desk, m: EpisodeId, msgs: seq<EngineMsg>)
    requires Uncreating(AnyHost(d), msgs)
    ensures RunCreatesOnly(d, m, msgs)
  {
    forall msg, tx | msg in msgs && msg.BlkAccepted? && tx in msg.block.txs ensures CreatesOnly(d, m, tx) {
      assert !Creates(AnyHost(d), tx);
    }
  }

  /** A merchant that is live, and not created again, in two shops that agree on it, whatever the scores
      and however often the chain is reorganised. It is live in the end exactly if it was not too old at
      any filtering that any accepted block triggered, those reverted again included; in the other shop,
      sent the current chain alone, exactly if at none that those blocks trigger. When it is live in
      both, engine and tables are the same but for the clock. */
  lemma MerchantDeterminedIff(d: Desk, m: EpisodeId, x: Shop, y: Shop, msgs: seq<EngineMsg>)
    requires ShopOk(d, m, x) && ShopOk(d, m, y) && Agree(x, y) && m in x.engine.episodes
    requires FollowsAll(x.engine.revertMap.Keys, [], msgs) && Uncreating(AnyHost(d), msgs)
    ensures
      var actual, alone := ShopRun(d, x, msgs), ShopRun(d, y, Accepts(ChainAfter([], msgs)));
      var creation := x.engine.creationTimes[m];
      && (m in actual.engine.episodes <==> Outlives(creation, x.engine.nextFiltering, Accepted(msgs)))
      && (m in alone.engine.episodes <==> Outlives(creation, y.engine.nextFiltering, ChainAfter([], msgs)))
      && (m in actual.engine.episodes && m in alone.engine.episodes ==> Agree(actual, alone))
  {
    var chain := ChainAfter([], msgs);
    AnyHostUndoes(d);
    ChainUncreating(AnyHost(d), msgs);
    RunIgnoresTables(d, x, msgs);
    RunIgnoresTables(d, y, Accepts(chain));
    LivesIff(AnyHost(d), Rules(), x.engine, msgs, m);
    AloneLivesIff(AnyHost(d), y.engine, msgs, m);
    if m in ShopRun(d, x, msgs).engine.episodes && m in ShopRun(d, y, Accepts(chain)).engine.episodes {
      BothLive(d, m, x, y, msgs);
    }
  }

  lemma BothLive(d: Desk, m: EpisodeId, x: Shop, y: Shop, msgs: seq<EngineMsg>)
    requires ShopOk(d, m, x) && ShopOk(d, m, y) && Agree(x, y)
    requires FollowsAll(x.engine.revertMap.Keys, [], msgs) && Uncreating(AnyHost(d), msgs)
    requires Spared(AnyHost(d), x.engine, msgs) && Spared(AnyHost(d), y.engine, Accepts(ChainAfter([], msgs)))
    requires m in ShopRun(d, x, msgs).engine.episodes
    ensures Agree(ShopRun(d, x, msgs), ShopRun(d, y, Accepts(ChainAfter([], msgs))))
  {
    var chain := ChainAfter([], msgs);
    AnyHostUndoes(d);
    ChainUncreating(AnyHost(d), msgs);
    RunIgnoresTables(d, x, msgs);
    RunIgnoresTables(d, y, Accepts(chain));
    UncreatingAdmissible(AnyHost(d), Rules(), msgs);
    NothingForgotten(Rules(), x.engine, y.engine);
    TwoStarts(AnyHost(d), Rules(), x.engine, y.engine, {}, msgs);
    NothingForgotten(Rules(), ShopRun(d, x, msgs).engine, ShopRun(d, y, Accepts(chain)).engine);
    BothOk(d, m, x, y, msgs);
    TablesFollow(d, m, ShopRun(d, x, msgs), ShopRun(d, y, Accepts(chain)));
  }

  lemma NothingForgotten<S, R>(k: Contract<S>, e: State<S, R>, f: State<S, R>)
    ensures SameSince(k, {}, e, f) <==> SameState(k, AtClock(e, 0), AtClock(f, 0))
  {
    assert e.revertMap - {} == e.revertMap && f.revertMap - {} == f.revertMap;
  }

  lemma BothOk(d: Desk, m: EpisodeId, x: Shop, y: Shop, msgs: seq<EngineMsg>)
    requires ShopOk(d, m, x) && ShopOk(d, m, y) && Uncreating(AnyHost(d), msgs)
    ensures ShopOk(d, m, ShopRun(d, x, msgs)) && ShopOk(d, m, ShopRun(d, y, Accepts(ChainAfter([], msgs))))
  {
    ChainUncreating(AnyHost(d), msgs);
    UncreatingCreatesOnly(d, m, msgs);
    UncreatingCreatesOnly(d, m, Accepts(ChainAfter([], msgs)));
    OneMerchantAgrees(d, m, x, msgs);
    OneMerchantAgrees(d, m, y, Accepts(ChainAfter([], msgs)));
  }

  lemma {:induction false} ShopRunConcat(d: Desk, x: Shop, a: seq<EngineMsg>, b: seq<EngineMsg>)
    requires Exit !in a
    ensures ShopRun(d, x, a + b) == ShopRun(d, ShopRun(d, x, a), b)
    decreases |a|
  {
    if a == [] {
      assert a + b == b;
    } else {
      assert (a + b)[0] == a[0] && (a + b)[1..] == a[1..] + b;
      ShopRunConcat(d, ShopStep(d, x, a[0]), a[1..], b);
    }
  }

  /** A first part of a run, in which merchants are created, no later than a lifetime past the first
      creation, and a second at any scores, which creates none and leaves the first part's blocks alone. */
  ghost predicate Founded(d: Desk, m: EpisodeId, lo: nat, before: seq<EngineMsg>, after: seq<EngineMsg>) {
    && FollowsAll({}, [], before) && RunCreatesOnly(d, m, before) && InWindow(AnyHost(d), lo, before)
    && FollowsAll(HashesOf(ChainAfter([], before)), [], after) && Uncreating(AnyHost(d), after)
  }

  /** The whole run against the whole chain, from a process's start. */
  lemma FoundedDeterminedIff(
    d: Desk, m: EpisodeId, tables: Tables, lo: nat, before: seq<EngineMsg>, after: seq<EngineMsg>)
    requires TablesOk(tables) && Founded(d, m, lo, before, after)
    requires m in ShopRun(d, Opened(tables), before).engine.episodes
    ensures
      var x, y := ShopRun(d, Opened(tables), before), ShopRun(d, Opened(tables), Accepts(ChainAfter([], before)));
      var actual := ShopRun(d, Opened(tables), before + after);
      var alone := ShopRun(d, Opened(tables), Accepts(ChainAfter([], before + after)));
      && m in x.engine.creationTimes
      && var creation := x.engine.creationTimes[m];
      && (m in actual.engine.episodes <==> Outlives(creation, x.engine.nextFiltering, Accepted(after)))
      && (m in alone.engine.episodes <==> Outlives(creation, y.engine.nextFiltering, ChainAfter([], after)))
      && (m in actual.engine.episodes && m in alone.engine.episodes ==> Agree(actual, alone))
  {
    var base, top := ChainAfter([], before), ChainAfter([], after);
    var x, y := ShopRun(d, Opened(tables), before), ShopRun(d, Opened(tables), Accepts(base));
    FoundedOk(d, m, tables, lo, before, after);
    MerchantDeterminedIff(d, m, x, y, after);
    FollowsTwo(before, after);
    NoExit({}, [], before);
    ShopRunConcat(d, Opened(tables), before, after);
    AcceptsTogether(base, top);
    ShopRunConcat(d, Opened(tables), Accepts(base), Accepts(top));
  }

  lemma AcceptsTogether(a: seq<Block>, b: seq<Block>)
    ensures Accepts(a + b) == Accepts(a) + Accepts(b) && Exit !in Accepts(a)
  {
  }

  lemma FollowsTwo(before: seq<EngineMsg>, after: seq<EngineMsg>)
    requires FollowsAll({}, [], before) && FollowsAll(HashesOf(ChainAfter([], before)), [], after)
    ensures ChainAfter([], before + after) == ChainAfter([], before) + ChainAfter([], after)
  {
    var base := ChainAfter([], before);
    BuildsOn(base, [], after);
    assert base + [] == base;
    FollowsOn({}, [], before, after);
  }

  lemma OpenedDetermined(d: Desk, m: EpisodeId, tables: Tables, lo: nat)
    requires TablesOk(tables)
    ensures ShopOk(d, m, Opened(tables)) && Since(Opened(tables).engine, lo)
    ensures Opened(tables).engine.revertMap.Keys == {}
    ensures ShopDetermined(d, m, lo, Opened(tables), Opened(tables), [])
  {
    OpenedOk(d, m, tables);
    AgreeReflexive(Opened(tables));
  }

  lemma FoundedOk(d: Desk, m: EpisodeId, tables: Tables, lo: nat, before: seq<EngineMsg>, after: seq<EngineMsg>)
    requires TablesOk(tables) && Founded(d, m, lo, before, after)
    ensures
      var x, y := ShopRun(d, Opened(tables), before), ShopRun(d, Opened(tables), Accepts(ChainAfter([], before)));
      && ShopOk(d, m, x) && ShopOk(d, m, y) && Agree(x, y)
      && x.engine.revertMap.Keys == HashesOf(ChainAfter([], before))
  {
    var chain := ChainAfter([], before);
    OpenedDetermined(d, m, tables, lo);
    ShopRunDetermined(d, m, lo, Opened(tables), Opened(tables), [], before);
    ShopChainIsRun(d, Opened(tables), chain);
    ShopChainSound(d, m, lo, Opened(tables), chain);
    assert {} + HashesOf(chain) == HashesOf(chain);
  }
}
