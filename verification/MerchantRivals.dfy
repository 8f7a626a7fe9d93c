/** Two merchants in one process write each other's tables: a run in which the indices disagree and
    the undo contract fails. */
module MerchantRivals {
  import opened Wrappers
  import opened Primitives
  import opened Episodes
  import opened EngineSpec
  import opened Merchant
  import opened MerchantInvariants
  import opened MerchantUndo
  import opened MerchantDatabase
  import opened MerchantEngine

  /** The two are created; the first issues invoice 7 and `c` pays it, with outputs that cover it; the
      second issues an invoice 7 of its own; a third is created. */
  ghost predicate Rivals(d: Desk, txs: seq<Tx>, a: PubKey, c: PubKey) {
    && |txs| == 6 && OutputsError(txs[3].outputs, PRICE, [a]).None?
    && d.parse(txs[0].payload) == Some(NewEpisode(1, [a]))
    && d.parse(txs[1].payload) == Some(NewEpisode(2, [a]))
    && SignedBy(d, txs[2], 1, ISSUE, a)
    && SignedBy(d, txs[3], 1, MarkPaid(7, c), c)
    && SignedBy(d, txs[4], 2, ISSUE, a)
    && d.parse(txs[5].payload) == Some(NewEpisode(3, [a]))
  }

  lemma ShopTxsPush(d: Desk, x: Shop, b: Block, txs: seq<Tx>, i: nat)
    requires i < |txs|
    ensures ShopTxs(d, x, b, txs[..i + 1]).0 == ShopTx(d, ShopTxs(d, x, b, txs[..i]).0, b, txs[i]).0
  {
    assert txs[..i + 1][..i] == txs[..i];
  }

  /** The shop after the first `i` transactions. */
  function After(d: Desk, b: Block, c: PubKey, i: nat): Shop
    requires i <= |b.txs|
  {
    ShopTxs(d, Opened(OneCustomer(c)), b, b.txs[..i]).0
  }

  lemma BothCreated(d: Desk, b: Block, a: PubKey, c: PubKey)
    requires Rivals(d, b.txs, a, c)
    ensures
      var x, first := After(d, b, c, 2), Load([a], OneCustomer(c));
      && x.engine.episodes == map[1 := Wrapper(first, []), 2 := Wrapper(first, [])]
      && x.tables == OneCustomer(c)
  {
    assert After(d, b, c, 0) == Opened(OneCustomer(c));
    ShopTxsPush(d, Opened(OneCustomer(c)), b, b.txs, 0);
    Creation(d, After(d, b, c, 0), b, b.txs[0], 1, [a]);
    ShopTxsPush(d, Opened(OneCustomer(c)), b, b.txs, 1);
    Creation(d, After(d, b, c, 1), b, b.txs[1], 2, [a]);
  }

  lemma FirstIsPaid(d: Desk, b: Block, a: PubKey, c: PubKey)
    requires Rivals(d, b.txs, a, c)
    ensures
      var x, first := After(d, b, c, 4), Load([a], OneCustomer(c));
      var md1, md2 := MetadataOf(b, b.txs[2]), MetadataOf(b, b.txs[3]);
      var issued := Execute(first, ISSUE, Some(a), md1).0;
      && x.engine.episodes.Keys == {1, 2} && x.engine.episodes[2].episode == first
      && x.tables == Stored(Stored(OneCustomer(c), first, ISSUE, Some(a), md1), issued, MarkPaid(7, c), Some(c), md2)
  {
    BothCreated(d, b, a, c);
    ShopTxsPush(d, Opened(OneCustomer(c)), b, b.txs, 2);
    Command(d, After(d, b, c, 2), b, b.txs[2], 1, ISSUE, a);
    ShopTxsPush(d, Opened(OneCustomer(c)), b, b.txs, 3);
    Command(d, After(d, b, c, 3), b, b.txs[3], 1, MarkPaid(7, c), c);
  }

  lemma RivalTables(d: Desk, b: Block, a: PubKey, c: PubKey)
    requires Rivals(d, b.txs, a, c)
    ensures
      var x := After(d, b, c, 5);
      && x.engine.episodes.Keys == {1, 2}
      && x.tables == AfterBoth(a, c, MetadataOf(b, b.txs[2]), MetadataOf(b, b.txs[3]), MetadataOf(b, b.txs[4]))
  {
    FirstIsPaid(d, b, a, c);
    ShopTxsPush(d, Opened(OneCustomer(c)), b, b.txs, 4);
    Command(d, After(d, b, c, 4), b, b.txs[4], 2, ISSUE, a);
  }

  /** The run. The third merchant's indices disagree, and rolling back the payment of invoice 7, which
      it accepts, does not hand back the merchant the command was given to. */
  lemma RivalsBreakTheContract(d: Desk, b: Block, a: PubKey, c: PubKey, later: PayloadMetadata)
    requires Rivals(d, b.txs, a, c) && OutputsError(later.txOutputs, PRICE, [a]).None?
    ensures
      var x := ShopRun(d, Opened(OneCustomer(c)), [BlkAccepted(b)]);
      && TablesOk(OneCustomer(c)) && 3 in x.engine.episodes
      && var third := x.engine.episodes[3].episode;
         var (paid, res) := Execute(third, MarkPaid(7, c), Some(c), later);
         !Inv(third) && res.Ok? && !Same(Rollback(paid, res.value).0, third)
  {
    var md1, md2, md3 := MetadataOf(b, b.txs[2]), MetadataOf(b, b.txs[3]), MetadataOf(b, b.txs[4]);
    RivalTables(d, b, a, c);
    ShopTxsPush(d, Opened(OneCustomer(c)), b, b.txs, 5);
    assert b.txs[..6] == b.txs;
    Creation(d, After(d, b, c, 5), b, b.txs[5], 3, [a]);
    StartIsUnfiltered(d, b, c);
    TwoMerchantsDisagree(a, c, md1, md2, md3, later);
    StartOk(c);
  }

  /** An engine that has no episodes filters nothing but its clock. */
  lemma StartIsUnfiltered(d: Desk, b: Block, c: PubKey)
    ensures ShopRun(d, Opened(OneCustomer(c)), [BlkAccepted(b)]).engine.episodes ==
            ShopTxs(d, Opened(OneCustomer(c)), b, b.txs).0.engine.episodes
  {
    var x := Opened(OneCustomer(c));
    assert ShopRun(d, x, [BlkAccepted(b)]) == ShopAccept(d, x, b);
    ClockDoesNotMatter(d, x, NextFiltering(0, b.daa), b, b.txs);
    assert Filter(x.engine, b.daa) == x.engine.(nextFiltering := NextFiltering(0, b.daa)) by {
      assert x.engine.episodes == map[] && PrunedBy(x.engine, b.daa) == {};
    }
  }

  lemma {:induction false} ClockDoesNotMatter(d: Desk, x: Shop, clock: nat, b: Block, txs: seq<Tx>)
    ensures
      var (x', entries) := ShopTxs(d, x, b, txs);
      ShopTxs(d, x.(engine := x.engine.(nextFiltering := clock)), b, txs)
      == (x'.(engine := x'.engine.(nextFiltering := clock)), entries)
    decreases |txs|
  {
    if txs != [] {
      ClockDoesNotMatter(d, x, clock, b, txs[..|txs| - 1]);
      var x1 := ShopTxs(d, x, b, txs[..|txs| - 1]).0;
      ClockDoesNotMatterToTx(d, x1, clock, b, txs[|txs| - 1]);
    }
  }

  lemma ClockDoesNotMatterToTx(d: Desk, x: Shop, clock: nat, b: Block, tx: Tx)
    ensures
      var (x', entry) := ShopTx(d, x, b, tx);
      ShopTx(d, x.(engine := x.engine.(nextFiltering := clock)), b, tx)
      == (x'.(engine := x'.engine.(nextFiltering := clock)), entry)
  {
  }

  lemma StartOk(c: PubKey)
    ensures TablesOk(OneCustomer(c))
  {
    assert Carriers(map[]) == {};
  }
}
