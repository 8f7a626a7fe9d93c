/** What a reverted fork leaves of a merchant: nothing, as long as the merchant outlives the fork's
    filterings; otherwise no merchant, and tables that keep what its lost life wrote. */
module MerchantForks {
  import opened Primitives
  import opened EngineSpec
  import opened EngineReorg
  import opened EngineFrame
  import opened EngineTransparency
  import opened Merchant
  import opened MerchantUndo
  import opened MerchantDatabase
  import opened MerchantEngine
  import opened MerchantReorgs

  /** The merchant is live, and not too old at any filtering the blocks trigger. */
  predicate Stays(m: EpisodeId, x: Shop, blocks: seq<Block>) {
    && m in x.engine.episodes && m in x.engine.creationTimes
    && Outlives(x.engine.creationTimes[m], x.engine.nextFiltering, blocks)
  }

  /** The tables a reverted fork leaves. Only a life that is still there when the fork ends has its
      rollbacks run: they lead back to the tables it began with. A life lost to filtering has none. */
  function Left(d: Desk, m: EpisodeId, x: Shop, fork: seq<Block>): Tables
    decreases |fork|
  {
    if fork == [] then x.tables
    else
      var x1 := ShopAccept(d, x, fork[0]);
      if Stays(m, x1, fork[1..]) then x.tables else Left(d, m, x1, fork[1..])
  }

  lemma {:induction false} TxsExtendShop(d: Desk, x: Shop, b: Block, txs: seq<Tx>)
    requires Matched(x.engine)
    ensures Extends(x.engine, ShopTxs(d, x, b, txs).0.engine)
    decreases |txs|
  {
    if txs != [] {
      var shorter := txs[..|txs| - 1];
      TxsExtendShop(d, x, b, shorter);
      var x1 := ShopTxs(d, x, b, shorter).0;
      TxExtends(HostAt(d, x1.tables), x1.engine, b, txs[|txs| - 1]);
    }
  }

  /** A merchant the block's filtering spares keeps its creation time, and moves on with the clock. */
  lemma AcceptedStays(d: Desk, m: EpisodeId, x: Shop, fork: seq<Block>)
    requires Matched(x.engine) && fork != [] && m in Filter(x.engine, fork[0].daa).episodes
    ensures Stays(m, x, fork) <==> Stays(m, ShopAccept(d, x, fork[0]), fork[1..])
  {
    var b := fork[0];
    TxsExtendShop(d, x.(engine := Filter(x.engine, b.daa)), b, b.txs);
  }

  lemma PrunedDoesNotStay(m: EpisodeId, x: Shop, fork: seq<Block>)
    requires Matched(x.engine) && fork != [] && m !in Filter(x.engine, fork[0].daa).episodes
    ensures !Stays(m, x, fork)
  {
  }

  /** While no merchant is live, reverting does nothing but forget. */
  lemma {:induction false} RevertEntriesOfAbsent(d: Desk, x: Shop, entries: seq<Entry>)
    requires x.engine.episodes == map[]
    ensures ShopRevertEntries(d, x, entries) == x
    decreases |entries|
  {
    if entries != [] {
      RevertEntriesOfAbsent(d, x, entries[..|entries| - 1]);
    }
  }

  lemma RevertOfAbsent(d: Desk, x: Shop, hash: Hash)
    requires x.engine.episodes == map[]
    ensures ShopRevert(d, x, hash) == x.(engine := x.engine.(revertMap := x.engine.revertMap - {hash}))
  {
    if hash in x.engine.revertMap {
      RevertEntriesOfAbsent(d, x.(engine := x.engine.(revertMap := x.engine.revertMap - {hash})),
                            x.engine.revertMap[hash]);
    } else {
      assert x.engine.revertMap - {hash} == x.engine.revertMap;
    }
  }

  ghost predicate ForkOk(d: Desk, m: EpisodeId, x: Shop, fork: seq<Block>) {
    && ShopOk(d, m, x) && Fresh(x.engine.revertMap.Keys, fork)
    && forall b :: b in fork ==> BlockCreatesOnly(d, m, b)
  }

  function AfterFork(d: Desk, x: Shop, fork: seq<Block>): Shop {
    ShopRun(d, x, Accepts(fork) + Reverts(fork))
  }

  /** A fork's first block is reverted last. */
  lemma AfterForkStep(d: Desk, x: Shop, fork: seq<Block>)
    requires fork != []
    ensures AfterFork(d, x, fork) ==
            ShopRevert(d, AfterFork(d, ShopAccept(d, x, fork[0]), fork[1..]), fork[0].hash)
  {
    var inner := Accepts(fork[1..]) + Reverts(fork[1..]);
    ForkMsgs(fork);
    NoExitInFork(fork[1..]);
    ShopRunPush(d, ShopAccept(d, x, fork[0]), inner, BlkReverted(fork[0].hash));
  }

  lemma NoExitInFork(fork: seq<Block>)
    ensures Exit !in Accepts(fork) + Reverts(fork)
  {
  }

  /** What a reverted fork leaves, exactly. */
  ghost predicate Leaves(d: Desk, m: EpisodeId, x: Shop, fork: seq<Block>, y: Shop) {
    if Stays(m, x, fork) then Agree(y, x)
    else
      && y.engine.episodes == map[] && y.engine.revertMap == x.engine.revertMap
      && SameTables(y.tables, Left(d, m, x, fork))
  }

  lemma {:induction false} ForkLeaves(d: Desk, m: EpisodeId, x: Shop, fork: seq<Block>)
    requires ForkOk(d, m, x, fork)
    ensures ShopOk(d, m, AfterFork(d, x, fork)) && Leaves(d, m, x, fork, AfterFork(d, x, fork))
    decreases |fork|
  {
    if fork == [] {
      assert AfterFork(d, x, fork) == x;
      AgreeReflexive(x);
    } else {
      var b, x1 := fork[0], ShopAccept(d, x, fork[0]);
      var z := AfterFork(d, x1, fork[1..]);
      InnerForkOk(d, m, x, fork);
      ForkLeaves(d, m, x1, fork[1..]);
      AfterForkStep(d, x, fork);
      RevertOk(d, m, z, b.hash);
      if Stays(m, x1, fork[1..]) {
        KeptByRest(d, m, x, fork, z);
      } else {
        LostInRest(d, m, x, fork, z);
      }
    }
  }

  lemma InnerForkOk(d: Desk, m: EpisodeId, x: Shop, fork: seq<Block>)
    requires ForkOk(d, m, x, fork) && fork != []
    ensures ForkOk(d, m, ShopAccept(d, x, fork[0]), fork[1..])
    ensures ShopAccept(d, x, fork[0]).engine.revertMap - {fork[0].hash} == x.engine.revertMap
  {
    var b := fork[0];
    AcceptOk(d, m, x, b);
    FilterOk(d, m, x, b.daa);
    TxsOk(d, m, x.(engine := Filter(x.engine, b.daa)), b, b.txs);
  }

  /** The life that is there after the first block outlives the rest: the block is undone. */
  lemma KeptByRest(d: Desk, m: EpisodeId, x: Shop, fork: seq<Block>, z: Shop)
    requires ForkOk(d, m, x, fork) && fork != []
    requires
      var x1 := ShopAccept(d, x, fork[0]);
      Stays(m, x1, fork[1..]) && ShopOk(d, m, z) && Agree(z, x1)
    ensures Leaves(d, m, x, fork, ShopRevert(d, z, fork[0].hash))
  {
    var b, x1 := fork[0], ShopAccept(d, x, fork[0]);
    InnerForkOk(d, m, x, fork);
    RevertAgrees(d, m, z, x1, b.hash);
    ShopBlockThenRevert(d, m, x, b);
    AgreeTransitive(ShopRevert(d, z, b.hash), ShopRevert(d, x1, b.hash), x.(engine := Filter(x.engine, b.daa)));
    FilteredLeaves(d, m, x, fork, ShopRevert(d, z, b.hash));
  }

  lemma FilteredLeaves(d: Desk, m: EpisodeId, x: Shop, fork: seq<Block>, y: Shop)
    requires ForkOk(d, m, x, fork) && fork != [] && Stays(m, ShopAccept(d, x, fork[0]), fork[1..])
    requires Agree(y, x.(engine := Filter(x.engine, fork[0].daa)))
    ensures Leaves(d, m, x, fork, y)
  {
    if m in Filter(x.engine, fork[0].daa).episodes {
      AcceptedStays(d, m, x, fork);
      SparedAgrees(d, m, x, fork[0].daa);
      AgreeTransitive(y, x.(engine := Filter(x.engine, fork[0].daa)), x);
    } else {
      PrunedDoesNotStay(m, x, fork);
      assert Filter(x.engine, fork[0].daa).episodes == map[];
    }
  }

  /** Filtering that leaves the one merchant live prunes nobody. */
  lemma SparedAgrees(d: Desk, m: EpisodeId, x: Shop, daa: nat)
    requires ShopOk(d, m, x) && m in Filter(x.engine, daa).episodes
    ensures Agree(x.(engine := Filter(x.engine, daa)), x)
  {
    assert PrunedBy(x.engine, daa) == {};
    assert x.engine.episodes - {} == x.engine.episodes && x.engine.creationTimes - {} == x.engine.creationTimes;
    AgreeReflexive(x);
  }

  /** It does not: what is left is left. */
  lemma LostInRest(d: Desk, m: EpisodeId, x: Shop, fork: seq<Block>, z: Shop)
    requires ForkOk(d, m, x, fork) && fork != []
    requires
      var x1 := ShopAccept(d, x, fork[0]);
      !Stays(m, x1, fork[1..]) && Leaves(d, m, x1, fork[1..], z)
    ensures Leaves(d, m, x, fork, ShopRevert(d, z, fork[0].hash))
  {
    InnerForkOk(d, m, x, fork);
    RevertOfAbsent(d, z, fork[0].hash);
    if m in Filter(x.engine, fork[0].daa).episodes {
      AcceptedStays(d, m, x, fork);
    } else {
      PrunedDoesNotStay(m, x, fork);
    }
  }

  /** A fork that is accepted and reverted leaves a live merchant and its database as they were, but
      for the clock, exactly if the merchant was not too old at any filtering the fork triggered. */
  lemma ForkInvisibleToMerchant(d: Desk, m: EpisodeId, x: Shop, fork: seq<Block>)
    requires ForkOk(d, m, x, fork) && m in x.engine.episodes
    ensures Agree(AfterFork(d, x, fork), x) <==>
            Outlives(x.engine.creationTimes[m], x.engine.nextFiltering, fork)
  {
    ForkLeaves(d, m, x, fork);
    assert !Stays(m, x, fork) ==> m !in AfterFork(d, x, fork).engine.episodes;
  }

  /** Where none is live, the engine is as it was, and the database exactly if the tables left are. */
  lemma ForkBeforeCreation(d: Desk, m: EpisodeId, x: Shop, fork: seq<Block>)
    requires ForkOk(d, m, x, fork) && m !in x.engine.episodes
    ensures Agree(AfterFork(d, x, fork), x) <==> SameTables(Left(d, m, x, fork), x.tables)
  {
    var y := AfterFork(d, x, fork);
    ForkLeaves(d, m, x, fork);
    assert x.engine.episodes == map[] && y.engine.episodes == map[];
    assert x.engine.creationTimes == map[] && y.engine.creationTimes == map[];
    if SameTables(y.tables, x.tables) {
      SameTablesTransitive(Left(d, m, x, fork), y.tables, x.tables);
    }
    if SameTables(Left(d, m, x, fork), x.tables) {
      SameTablesTransitive(y.tables, Left(d, m, x, fork), x.tables);
    }
  }

  lemma SameTablesTransitive(a: Tables, b: Tables, c: Tables)
    requires SameTables(a, b) || SameTables(b, a)
    requires SameTables(b, c)
    ensures SameTables(a, c)
  {
    LoadSame([], b, c);
    if SameTables(a, b) {
      LoadSame([], a, b);
    } else {
      LoadSame([], b, a);
      SameIsEquivalence();
    }
    SameTransitive(Load([], a), Load([], b), Load([], c));
  }

  /** A merchant that does not outlive a fork is gone, and if it is not live when the fork ends either,
      the tables keep all that was written to them until then: reverting writes nothing. */
  lemma PrunedForkLeaves(d: Desk, m: EpisodeId, x: Shop, fork: seq<Block>)
    requires ForkOk(d, m, x, fork) && m !in ShopRun(d, x, Accepts(fork)).engine.episodes
    ensures
      var y := AfterFork(d, x, fork);
      && y.engine.episodes == map[] && y.engine.revertMap == x.engine.revertMap
      && SameTables(y.tables, ShopRun(d, x, Accepts(fork)).tables)
  {
    ForkLeaves(d, m, x, fork);
    LeftAtTheEnd(d, m, x, fork);
  }

  lemma {:induction false} LeftAtTheEnd(d: Desk, m: EpisodeId, x: Shop, fork: seq<Block>)
    requires Matched(x.engine) && m !in ShopRun(d, x, Accepts(fork)).engine.episodes
    ensures !Stays(m, x, fork) && Left(d, m, x, fork) == ShopRun(d, x, Accepts(fork)).tables
    decreases |fork|
  {
    if fork != [] {
      var b := fork[0];
      assert Accepts(fork)[0] == BlkAccepted(b) && Accepts(fork)[1..] == Accepts(fork[1..]);
      TxsExtendShop(d, x.(engine := Filter(x.engine, b.daa)), b, b.txs);
      LeftAtTheEnd(d, m, ShopAccept(d, x, b), fork[1..]);
      if m in Filter(x.engine, b.daa).episodes {
        AcceptedStays(d, m, x, fork);
      } else {
        PrunedDoesNotStay(m, x, fork);
      }
    }
  }
}
