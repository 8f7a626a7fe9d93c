/** An invoice on no chain: what a merchant lost to filtering wrote stays in the tables. */
module MerchantOrphans {
  import opened Wrappers
  import opened Primitives
  import opened EngineSpec
  import opened EngineReorg
  import opened EngineFrame
  import opened EngineChain
  import opened Merchant
  import opened MerchantInvariants
  import opened MerchantEngine
  import opened MerchantForks

  /** A merchant is created; a block issues an invoice; a later block, with any transaction that creates
      nothing, finds the merchant too old. */
  ghost predicate Orphaning(
    d: Desk, m: EpisodeId, first: Block, second: Block, third: Block, ps: seq<PubKey>, key: PubKey,
    cmd: MerchantCommand)
  {
    && |first.txs| == |second.txs| == |third.txs| == 1
    && d.parse(first.txs[0].payload) == Some(NewEpisode(m, ps))
    && cmd.CreateInvoice? && cmd.amount > 0 && key in ps && SignedBy(d, second.txs[0], m, cmd, key)
    && !Creates(AnyHost(d), third.txs[0])
    && Fresh({}, [first, second, third])
    && second.daa <= first.daa + EPISODE_LIFETIME < third.daa && second.daa + SAMPLE_REMOVAL_TIME < third.daa
  }

  lemma OneTx(d: Desk, x: Shop, b: Block)
    requires |b.txs| == 1
    ensures ShopTxs(d, x, b, b.txs).0 == ShopTx(d, x, b, b.txs[0]).0
  {
    assert b.txs[..0] == [];
  }

  lemma CreatedBy(d: Desk, m: EpisodeId, x: Shop, b: Block, ps: seq<PubKey>)
    requires x.engine.episodes == map[] && x.engine.creationTimes == map[]
    requires |b.txs| == 1 && d.parse(b.txs[0].payload) == Some(NewEpisode(m, ps))
    ensures
      var x' := ShopAccept(d, x, b);
      && x'.engine.episodes == map[m := Wrapper(Load(ps, x.tables), [])]
      && x'.engine.creationTimes == map[m := b.daa]
      && x'.engine.nextFiltering == NextFiltering(x.engine.nextFiltering, b.daa)
      && x'.engine.revertMap.Keys == x.engine.revertMap.Keys + {b.hash}
      && x'.tables == x.tables
  {
    OneTx(d, x.(engine := Filter(x.engine, b.daa)), b);
  }

  lemma IssuedBy(d: Desk, m: EpisodeId, x: Shop, b: Block, key: PubKey, cmd: MerchantCommand)
    requires m in x.engine.episodes && Matched(x.engine) && PrunedBy(x.engine, b.daa) == {}
    requires |b.txs| == 1 && SignedBy(d, b.txs[0], m, cmd, key)
    requires
      var s := x.engine.episodes[m].episode;
      cmd.CreateInvoice? && cmd.amount > 0 && key in s.merchantKeys && cmd.invoiceId !in s.invoices
    ensures
      var x' := ShopAccept(d, x, b);
      && m in x'.engine.creationTimes && x'.engine.creationTimes[m] == x.engine.creationTimes[m]
      && x'.engine.nextFiltering == NextFiltering(x.engine.nextFiltering, b.daa)
      && Matched(x'.engine) && cmd.invoiceId in x'.tables.invoices
  {
    var x0 := x.(engine := Filter(x.engine, b.daa));
    assert x0.engine.episodes == x.engine.episodes;
    OneTx(d, x0, b);
    Command(d, x0, b, b.txs[0], m, cmd, key);
    TxsExtendShop(d, x0, b, b.txs);
  }

  lemma PrunedByBlock(d: Desk, m: EpisodeId, x: Shop, b: Block)
    requires x.engine.episodes.Keys <= {m} && m in PrunedBy(x.engine, b.daa)
    requires |b.txs| == 1 && !Creates(AnyHost(d), b.txs[0])
    ensures m !in ShopAccept(d, x, b).engine.episodes && ShopAccept(d, x, b).tables == x.tables
  {
    var x0 := x.(engine := Filter(x.engine, b.daa));
    assert x0.engine.episodes == map[];
    OneTx(d, x0, b);
  }

  lemma OrphanedTables(
    d: Desk, m: EpisodeId, x: Shop, second: Block, third: Block, key: PubKey, cmd: MerchantCommand, created: nat)
    requires x.engine.creationTimes == map[m := created] && x.engine.episodes.Keys == {m}
    requires x.engine.nextFiltering <= created
    requires |second.txs| == 1 && SignedBy(d, second.txs[0], m, cmd, key)
    requires |third.txs| == 1 && !Creates(AnyHost(d), third.txs[0])
    requires second.daa <= created + EPISODE_LIFETIME < third.daa && second.daa + SAMPLE_REMOVAL_TIME < third.daa
    requires
      var s := x.engine.episodes[m].episode;
      cmd.CreateInvoice? && cmd.amount > 0 && key in s.merchantKeys && cmd.invoiceId !in s.invoices
    requires ForkOk(d, m, x, [second, third])
    ensures
      var end := ShopAccept(d, ShopAccept(d, x, second), third);
      m !in end.engine.episodes && cmd.invoiceId in end.tables.invoices
  {
    assert PrunedBy(x.engine, second.daa) == {};
    IssuedBy(d, m, x, second, key, cmd);
    assert ShopAccept(d, x, second).engine.episodes.Keys <= {m} by {
      InnerForkOk(d, m, x, [second, third]);
    }
    PrunedByBlock(d, m, ShopAccept(d, x, second), third);
  }

  lemma RunOne(d: Desk, x: Shop, b: Block)
    ensures ShopRun(d, x, [BlkAccepted(b)]) == ShopAccept(d, x, b)
  {
    assert [BlkAccepted(b)][1..] == [];
    assert ShopRun(d, ShopAccept(d, x, b), []) == ShopAccept(d, x, b);
  }

  lemma RunTwo(d: Desk, x: Shop, b: Block, c: Block)
    ensures ShopRun(d, x, Accepts([b, c])) == ShopAccept(d, ShopAccept(d, x, b), c)
  {
    assert Accepts([b, c])[0] == BlkAccepted(b) && Accepts([b, c])[1..] == [BlkAccepted(c)];
    RunOne(d, ShopAccept(d, x, b), c);
  }

  /** Both later blocks are reverted. The chain is the creating block alone, and the engine remembers
      no other, yet the merchant is gone, the invoice is in the tables, and the next merchant has it. */
  lemma RevertedInvoiceStays(
    d: Desk, m: EpisodeId, tables: Tables, first: Block, second: Block, third: Block, again: Block, ps: seq<PubKey>,
    key: PubKey, cmd: MerchantCommand)
    requires TablesOk(tables) && Orphaning(d, m, first, second, third, ps, key, cmd)
    requires cmd.invoiceId !in tables.invoices && again.txs == first.txs
    ensures
      var x := ShopRun(d, Opened(tables), [BlkAccepted(first)]);
      var y := AfterFork(d, x, [second, third]);
      && y.engine.revertMap == x.engine.revertMap
      && m in x.engine.episodes && m !in y.engine.episodes
      && cmd.invoiceId !in x.tables.invoices && cmd.invoiceId in y.tables.invoices
      && m in ShopAccept(d, y, again).engine.episodes
      && cmd.invoiceId in ShopAccept(d, y, again).engine.episodes[m].episode.invoices
  {
    var x, fork := ShopRun(d, Opened(tables), [BlkAccepted(first)]), [second, third];
    RunOne(d, Opened(tables), first);
    RunTwo(d, x, second, third);
    CreatedBy(d, m, Opened(tables), first, ps);
    OrphaningForkOk(d, m, tables, first, second, third, ps, key, cmd);
    OrphanedTables(d, m, x, second, third, key, cmd, first.daa);
    PrunedForkLeaves(d, m, x, fork);
    Recreated(d, m, x, fork, again, ps);
  }

  /** The next merchant has what it loads. */
  lemma Recreated(d: Desk, m: EpisodeId, x: Shop, fork: seq<Block>, again: Block, ps: seq<PubKey>)
    requires ForkOk(d, m, x, fork) && AfterFork(d, x, fork).engine.episodes == map[]
    requires |again.txs| == 1 && d.parse(again.txs[0].payload) == Some(NewEpisode(m, ps))
    ensures
      var y := AfterFork(d, x, fork);
      var y' := ShopAccept(d, y, again);
      m in y'.engine.episodes && y'.engine.episodes[m].episode == Load(ps, y.tables)
  {
    ForkLeaves(d, m, x, fork);
    CreatedBy(d, m, AfterFork(d, x, fork), again, ps);
  }

  lemma OrphaningForkOk(
    d: Desk, m: EpisodeId, tables: Tables, first: Block, second: Block, third: Block, ps: seq<PubKey>, key: PubKey,
    cmd: MerchantCommand)
    requires TablesOk(tables) && Orphaning(d, m, first, second, third, ps, key, cmd)
    ensures ForkOk(d, m, ShopAccept(d, Opened(tables), first), [second, third])
  {
    assert [first, second, third] == [first] + [second, third];
    OpenedOk(d, m, tables);
    AcceptOk(d, m, Opened(tables), first);
    assert ShopAccept(d, Opened(tables), first).engine.revertMap.Keys == {first.hash};
    FreshTail(first, [second, third]);
    assert first.txs == [first.txs[0]] && second.txs == [second.txs[0]] && third.txs == [third.txs[0]];
    assert BlockCreatesOnly(d, m, second) && BlockCreatesOnly(d, m, third);
  }

  lemma FreshTail(b: Block, rest: seq<Block>)
    requires Fresh({}, [b] + rest)
    ensures Fresh({b.hash}, rest)
  {
    assert ([b] + rest)[1..] == rest;
    assert {} + {b.hash} == {b.hash};
  }
}
