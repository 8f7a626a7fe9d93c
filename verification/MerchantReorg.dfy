/** The current chain determines the merchant and the database, however many reorganisations led to it. */
module MerchantReorgs {
  import opened Wrappers
  import opened Primitives
  import opened Episodes
  import opened EngineSpec
  import opened EngineReorg
  import opened EngineChain
  import opened Merchant
  import opened MerchantUndo
  import opened MerchantDatabase
  import opened MerchantEngine

  /** Agreement on everything but the filtering clock. */
  ghost predicate Agree(x: Shop, y: Shop) {
    SameState(Rules(), AtClock(x.engine, 0), AtClock(y.engine, 0)) && SameTables(x.tables, y.tables)
  }

  lemma AgreeReflexive(x: Shop)
    ensures Agree(x, x)
  {
  }

  lemma AgreeTransitive(x: Shop, y: Shop, z: Shop)
    requires Agree(x, y) && Agree(y, z)
    ensures Agree(x, z)
  {
    SameIsEquivalence();
    SameStateTransitive(Rules(), AtClock(x.engine, 0), AtClock(y.engine, 0), AtClock(z.engine, 0));
    SameTransitive(Load([], x.tables), Load([], y.tables), Load([], z.tables)) by {
      LoadSame([], x.tables, y.tables);
      LoadSame([], y.tables, z.tables);
    }
  }

  /** While the merchant lives, its state says what is in the tables. */
  lemma TablesFollow(d: Desk, m: EpisodeId, x: Shop, y: Shop)
    requires ShopOk(d, m, x) && ShopOk(d, m, y)
    requires SameState(Rules(), AtClock(x.engine, 0), AtClock(y.engine, 0))
    requires m !in x.engine.episodes ==> SameTables(x.tables, y.tables)
    ensures Agree(x, y)
  {
    if m in x.engine.episodes {
      assert Same(x.engine.episodes[m].episode, y.engine.episodes[m].episode);
    }
  }

  /** Every operation respects agreement. */

  lemma TxEngines(d: Desk, m: EpisodeId, x: Shop, y: Shop, b: Block, tx: Tx)
    requires ShopOk(d, m, x) && ShopOk(d, m, y) && Agree(x, y)
    ensures SameState(Rules(), AtClock(ShopTx(d, x, b, tx).0.engine, 0), AtClock(ShopTx(d, y, b, tx).0.engine, 0))
    ensures ShopTx(d, x, b, tx).1 == ShopTx(d, y, b, tx).1
  {
    match d.parse(tx.payload) {
      case Some(NewEpisode(id, ps)) => CreateEngines(d, x, y, id, ps, MetadataOf(b, tx));
      case Some(SignedCommand(id, cmd, pk, sig)) =>
        if d.verify(pk, cmd, sig) {
          PerformEngines(d, m, x, y, id, cmd, Some(pk), MetadataOf(b, tx));
        }
      case Some(UnsignedCommand(id, cmd)) => PerformEngines(d, m, x, y, id, cmd, None, MetadataOf(b, tx));
      case _ =>
    }
  }

  lemma CreateEngines(d: Desk, x: Shop, y: Shop, id: EpisodeId, ps: seq<PubKey>, md: PayloadMetadata)
    requires Agree(x, y)
    ensures
      var p, q := Create(HostAt(d, x.tables), x.engine, id, ps, md), Create(HostAt(d, y.tables), y.engine, id, ps, md);
      SameState(Rules(), AtClock(p.0, 0), AtClock(q.0, 0)) && p.1 == q.1
  {
    LoadSame(ps, x.tables, y.tables);
  }

  lemma PerformEngines(
    d: Desk, m: EpisodeId, x: Shop, y: Shop, id: EpisodeId, cmd: MerchantCommand, auth: Option<PubKey>,
    md: PayloadMetadata)
    requires ShopOk(d, m, x) && ShopOk(d, m, y) && Agree(x, y)
    ensures
      var p, q := Perform(HostAt(d, x.tables), x.engine, id, cmd, auth, md),
        Perform(HostAt(d, y.tables), y.engine, id, cmd, auth, md);
      SameState(Rules(), AtClock(p.0, 0), AtClock(q.0, 0)) && p.1 == q.1
  {
    PerformAnyTables(d, x.engine, x.tables, id, cmd, auth, md);
    PerformAnyTables(d, y.engine, y.tables, id, cmd, auth, md);
    if id in x.engine.episodes {
      var w := x.engine.episodes[id];
      assert Undoable(AnyHost(d).ep, Rules(), w.episode, w.stack);
      ExecuteSame(w.episode, y.engine.episodes[id].episode, cmd, auth, md);
    }
    PerformRespects(AnyHost(d), Rules(), AtClock(x.engine, 0), AtClock(y.engine, 0), id, cmd, auth, md);
  }

  /** Only a live merchant's commands write. */
  lemma TxWrites(d: Desk, m: EpisodeId, x: Shop, b: Block, tx: Tx)
    requires x.engine.episodes.Keys <= {m}
    ensures m !in ShopTx(d, x, b, tx).0.engine.episodes ==> ShopTx(d, x, b, tx).0.tables == x.tables
  {
    assert RunTx(HostAt(d, x.tables), x.engine, b, tx).0.episodes.Keys >= x.engine.episodes.Keys;
  }

  lemma TxAgrees(d: Desk, m: EpisodeId, x: Shop, y: Shop, b: Block, tx: Tx)
    requires ShopOk(d, m, x) && ShopOk(d, m, y) && Agree(x, y) && CreatesOnly(d, m, tx)
    ensures Agree(ShopTx(d, x, b, tx).0, ShopTx(d, y, b, tx).0)
    ensures ShopTx(d, x, b, tx).1 == ShopTx(d, y, b, tx).1
  {
    TxOk(d, m, x, b, tx);
    TxOk(d, m, y, b, tx);
    TxEngines(d, m, x, y, b, tx);
    TxWrites(d, m, x, b, tx);
    TxWrites(d, m, y, b, tx);
    TablesFollow(d, m, ShopTx(d, x, b, tx).0, ShopTx(d, y, b, tx).0);
  }

  lemma {:induction false} TxsAgree(d: Desk, m: EpisodeId, x: Shop, y: Shop, b: Block, txs: seq<Tx>)
    requires ShopOk(d, m, x) && ShopOk(d, m, y) && Agree(x, y) && forall tx :: tx in txs ==> CreatesOnly(d, m, tx)
    ensures Agree(ShopTxs(d, x, b, txs).0, ShopTxs(d, y, b, txs).0)
    ensures ShopTxs(d, x, b, txs).1 == ShopTxs(d, y, b, txs).1
    decreases |txs|
  {
    if txs != [] {
      var tx, shorter := txs[|txs| - 1], txs[..|txs| - 1];
      TxsAgree(d, m, x, y, b, shorter);
      TxsOk(d, m, x, b, shorter);
      TxsOk(d, m, y, b, shorter);
      assert tx in txs;
      TxAgrees(d, m, ShopTxs(d, x, b, shorter).0, ShopTxs(d, y, b, shorter).0, b, tx);
    }
  }

  lemma RevertOneEngines(d: Desk, m: EpisodeId, x: Shop, y: Shop, id: EpisodeId)
    requires ShopOk(d, m, x) && ShopOk(d, m, y) && Agree(x, y)
    ensures SameState(Rules(), AtClock(ShopRevertOne(d, x, id).engine, 0), AtClock(ShopRevertOne(d, y, id).engine, 0))
  {
    RevertOneAnyTables(d, x.engine, x.tables, id);
    RevertOneAnyTables(d, y.engine, y.tables, id);
    AnyHostUndoes(d);
    RevertOneInBoth(AnyHost(d), Rules(), x.engine, y.engine, id);
  }

  lemma RevertOneInBoth<S(!new), C(!new), R(!new), E(!new)>(
    h: Host<S, C, R, E>, k: Contract<S>, e: State<S, R>, f: State<S, R>, id: EpisodeId)
    requires Undoes(h.ep, k) && Sound(h, k, e) && SameState(k, AtClock(e, 0), AtClock(f, 0))
    ensures SameState(k, AtClock(RevertOne(h, e, id), 0), AtClock(RevertOne(h, f, id), 0))
  {
    StackTopRespects(h, k, AtClock(e, 0), AtClock(f, 0), id);
    RevertOneRespects(h, k, AtClock(e, 0), AtClock(f, 0), id);
  }

  /** Deleting the merchant writes nothing. */
  lemma RevertOneWrites(d: Desk, m: EpisodeId, x: Shop, id: EpisodeId)
    requires ShopOk(d, m, x)
    ensures m !in ShopRevertOne(d, x, id).engine.episodes ==> ShopRevertOne(d, x, id).tables == x.tables
  {
  }

  lemma RevertOneAgrees(d: Desk, m: EpisodeId, x: Shop, y: Shop, id: EpisodeId)
    requires ShopOk(d, m, x) && ShopOk(d, m, y) && Agree(x, y)
    ensures Agree(ShopRevertOne(d, x, id), ShopRevertOne(d, y, id))
  {
    RevertOneOk(d, m, x, id);
    RevertOneOk(d, m, y, id);
    RevertOneEngines(d, m, x, y, id);
    RevertOneWrites(d, m, x, id);
    RevertOneWrites(d, m, y, id);
    TablesFollow(d, m, ShopRevertOne(d, x, id), ShopRevertOne(d, y, id));
  }

  lemma {:induction false} RevertEntriesAgree(d: Desk, m: EpisodeId, x: Shop, y: Shop, entries: seq<Entry>)
    requires ShopOk(d, m, x) && ShopOk(d, m, y) && Agree(x, y)
    ensures Agree(ShopRevertEntries(d, x, entries), ShopRevertEntries(d, y, entries))
    decreases |entries|
  {
    if entries != [] {
      var last := |entries| - 1;
      RevertOneAgrees(d, m, x, y, entries[last].id);
      RevertOneOk(d, m, x, entries[last].id);
      RevertOneOk(d, m, y, entries[last].id);
      RevertEntriesAgree(d, m, ShopRevertOne(d, x, entries[last].id), ShopRevertOne(d, y, entries[last].id),
                         entries[..last]);
    }
  }

  lemma RevertAgrees(d: Desk, m: EpisodeId, x: Shop, y: Shop, hash: Hash)
    requires ShopOk(d, m, x) && ShopOk(d, m, y) && Agree(x, y)
    ensures Agree(ShopRevert(d, x, hash), ShopRevert(d, y, hash))
  {
    if hash in x.engine.revertMap {
      var x1 := x.(engine := x.engine.(revertMap := x.engine.revertMap - {hash}));
      var y1 := y.(engine := y.engine.(revertMap := y.engine.revertMap - {hash}));
      assert ShopOk(d, m, x1) && ShopOk(d, m, y1) && Agree(x1, y1);
      RevertEntriesAgree(d, m, x1, y1, x.engine.revertMap[hash]);
    }
  }

  /** Reverting what a transaction, a list of them and then a block did, tables included. */

  lemma CreateThenRevert(d: Desk, x: Shop, b: Block, tx: Tx)
    requires x.engine.episodes.Keys == x.engine.creationTimes.Keys
    requires d.parse(tx.payload).Some? && d.parse(tx.payload).value.NewEpisode?
    ensures
      var (x', entry) := ShopTx(d, x, b, tx);
      match entry
      case None => x' == x
      case Some(en) => ShopRevertOne(d, x', en.id) == x
  {
    var id, ps := d.parse(tx.payload).value.id, d.parse(tx.payload).value.participants;
    if id !in x.engine.episodes {
      var w := Wrapper(Load(ps, x.tables), []);
      assert x.engine.episodes[id := w] - {id} == x.engine.episodes;
      assert x.engine.creationTimes[id := b.daa] - {id} == x.engine.creationTimes;
    }
  }

  lemma EngineThenRevert(d: Desk, m: EpisodeId, x: Shop, b: Block, tx: Tx)
    requires ShopOk(d, m, x) && !(d.parse(tx.payload).Some? && d.parse(tx.payload).value.NewEpisode?)
    ensures
      var (x', entry) := ShopTx(d, x, b, tx);
      match entry
      case None => x' == x
      case Some(en) =>
        && en.id == m && m in x.engine.episodes
        && SameState(Rules(), ShopRevertOne(d, x', en.id).engine, x.engine)
  {
    AnyHostUndoes(d);
    TxAnyTables(d, x, b, tx);
    TxThenRevert(AnyHost(d), Rules(), x.engine, b, tx);
    var (x', entry) := ShopTx(d, x, b, tx);
    if entry.Some? {
      RevertOneAnyTables(d, x'.engine, x'.tables, entry.value.id);
    }
  }

  lemma TxAnyTables(d: Desk, x: Shop, b: Block, tx: Tx)
    requires !(d.parse(tx.payload).Some? && d.parse(tx.payload).value.NewEpisode?)
    ensures RunTx(HostAt(d, x.tables), x.engine, b, tx) == RunTx(AnyHost(d), x.engine, b, tx)
    ensures RunTx(AnyHost(d), x.engine, b, tx).1.None? ==> TablesAfter(d, x, b, tx) == x.tables
    ensures RunTx(AnyHost(d), x.engine, b, tx).1.Some?
      ==> RunTx(AnyHost(d), x.engine, b, tx).1.value.id in x.engine.episodes
  {
    match d.parse(tx.payload) {
      case Some(SignedCommand(id, cmd, pk, sig)) =>
        PerformAnyTables(d, x.engine, x.tables, id, cmd, Some(pk), MetadataOf(b, tx));
      case Some(UnsignedCommand(id, cmd)) => PerformAnyTables(d, x.engine, x.tables, id, cmd, None, MetadataOf(b, tx));
      case _ =>
    }
  }

  lemma ShopTxThenRevert(d: Desk, m: EpisodeId, x: Shop, b: Block, tx: Tx)
    requires ShopOk(d, m, x) && CreatesOnly(d, m, tx)
    ensures
      var (x', entry) := ShopTx(d, x, b, tx);
      match entry
      case None => x' == x
      case Some(en) => Agree(ShopRevertOne(d, x', en.id), x)
  {
    if d.parse(tx.payload).Some? && d.parse(tx.payload).value.NewEpisode? {
      CreateThenRevert(d, x, b, tx);
      AgreeReflexive(x);
    } else {
      EngineThenRevert(d, m, x, b, tx);
      TxOk(d, m, x, b, tx);
      var (x', entry) := ShopTx(d, x, b, tx);
      if entry.Some? {
        RevertOneOk(d, m, x', m);
        TablesFollow(d, m, ShopRevertOne(d, x', m), x);
      }
    }
  }

  lemma {:induction false} ShopTxsThenRevert(d: Desk, m: EpisodeId, x: Shop, b: Block, txs: seq<Tx>)
    requires ShopOk(d, m, x) && forall tx :: tx in txs ==> CreatesOnly(d, m, tx)
    ensures
      var (x', entries) := ShopTxs(d, x, b, txs);
      Agree(ShopRevertEntries(d, x', entries), x)
    decreases |txs|
  {
    if txs == [] {
      AgreeReflexive(x);
    } else {
      var tx, shorter := txs[|txs| - 1], txs[..|txs| - 1];
      var (x1, entries) := ShopTxs(d, x, b, shorter);
      assert tx in txs;
      TxsOk(d, m, x, b, shorter);
      ShopTxsThenRevert(d, m, x, b, shorter);
      ShopTxThenRevert(d, m, x1, b, tx);
      TxOk(d, m, x1, b, tx);
      var (x2, entry) := ShopTx(d, x1, b, tx);
      if entry.Some? {
        assert (entries + [entry.value])[..|entries|] == entries;
        var back := ShopRevertOne(d, x2, entry.value.id);
        RevertOneOk(d, m, x2, entry.value.id);
        RevertEntriesAgree(d, m, back, x1, entries);
        AgreeTransitive(ShopRevertEntries(d, back, entries), ShopRevertEntries(d, x1, entries), x);
      }
    }
  }

  /** Inside the window, filtering only moves the clock. */
  lemma FilterAgrees(x: Shop, lo: nat, daa: nat)
    requires Since(x.engine, lo) && daa <= lo + EPISODE_LIFETIME
    ensures Agree(x.(engine := Filter(x.engine, daa)), x)
  {
    FilterMovesClock(x.engine, lo, daa);
    AgreeReflexive(x);
  }

  /** Reverting a block leaves, of that block, only the filtering it triggered. */
  lemma ShopBlockThenRevert(d: Desk, m: EpisodeId, x: Shop, b: Block)
    requires ShopOk(d, m, x) && BlockCreatesOnly(d, m, b) && b.hash !in x.engine.revertMap
    ensures Agree(ShopRevert(d, ShopAccept(d, x, b), b.hash), x.(engine := Filter(x.engine, b.daa)))
  {
    var x0 := x.(engine := Filter(x.engine, b.daa));
    FilterOk(d, m, x, b.daa);
    TxsOk(d, m, x0, b, b.txs);
    ShopTxsThenRevert(d, m, x0, b, b.txs);
    var (x1, entries) := ShopTxs(d, x0, b, b.txs);
    var accepted := ShopAccept(d, x, b);
    assert accepted.engine.revertMap - {b.hash} == x.engine.revertMap;
    assert accepted.(engine := accepted.engine.(revertMap := x.engine.revertMap)) == x1;
  }

  lemma AcceptAgreesToo(d: Desk, m: EpisodeId, x: Shop, y: Shop, lo: nat, b: Block)
    requires ShopOk(d, m, x) && ShopOk(d, m, y) && Agree(x, y) && BlockCreatesOnly(d, m, b)
    requires Since(x.engine, lo) && Since(y.engine, lo) && b.daa <= lo + EPISODE_LIFETIME
    ensures Agree(ShopAccept(d, x, b), ShopAccept(d, y, b))
  {
    var x0, y0 := x.(engine := Filter(x.engine, b.daa)), y.(engine := Filter(y.engine, b.daa));
    FilterOk(d, m, x, b.daa);
    FilterOk(d, m, y, b.daa);
    FilterMovesClock(x.engine, lo, b.daa);
    FilterMovesClock(y.engine, lo, b.daa);
    TxsAgree(d, m, x0, y0, b, b.txs);
    TxsOk(d, m, x0, b, b.txs);
    TxsOk(d, m, y0, b, b.txs);
  }

  /** The shop that was sent just a chain's blocks, in order. */
  function ShopChain(d: Desk, x: Shop, chain: seq<Block>): Shop
    decreases |chain|
  {
    if chain == [] then x else ShopAccept(d, ShopChain(d, x, chain[..|chain| - 1]), chain[|chain| - 1])
  }

  lemma {:induction false} ShopRunPush(d: Desk, x: Shop, msgs: seq<EngineMsg>, msg: EngineMsg)
    requires Exit !in msgs && !msg.Exit?
    ensures ShopRun(d, x, msgs + [msg]) == ShopStep(d, ShopRun(d, x, msgs), msg)
    decreases |msgs|
  {
    if msgs == [] {
      assert [] + [msg] == [msg] && [msg][1..] == [];
      assert ShopRun(d, ShopStep(d, x, msg), []) == ShopStep(d, x, msg);
    } else {
      assert (msgs + [msg])[1..] == msgs[1..] + [msg];
      ShopRunPush(d, ShopStep(d, x, msgs[0]), msgs[1..], msg);
    }
  }

  lemma {:induction false} ShopRunUntilExit(d: Desk, x: Shop, msgs: seq<EngineMsg>)
    ensures ShopRun(d, x, msgs + [Exit]) == ShopRun(d, x, msgs)
    decreases |msgs|
  {
    if msgs == [] || msgs[0].Exit? {
    } else {
      assert (msgs + [Exit])[1..] == msgs[1..] + [Exit];
      ShopRunUntilExit(d, ShopStep(d, x, msgs[0]), msgs[1..]);
    }
  }

  lemma {:induction false} ShopChainIsRun(d: Desk, x: Shop, chain: seq<Block>)
    ensures ShopChain(d, x, chain) == ShopRun(d, x, Accepts(chain))
    decreases |chain|
  {
    if chain != [] {
      var b, rest := chain[|chain| - 1], chain[..|chain| - 1];
      ShopChainIsRun(d, x, rest);
      AcceptsPush(rest, b);
      assert rest + [b] == chain;
      ShopRunPush(d, x, Accepts(rest), BlkAccepted(b));
    }
  }

  /** What is asked of a chain's blocks: new, distinct, in the window, creating no other merchant. */
  ghost predicate ShopChainOk(d: Desk, m: EpisodeId, lo: nat, earlier: set<Hash>, chain: seq<Block>)
    decreases |chain|
  {
    chain != [] ==>
      var b, rest := chain[|chain| - 1], chain[..|chain| - 1];
      && b.hash !in earlier + HashesOf(rest)
      && BlockCreatesOnly(d, m, b) && BlockInWindow(AnyHost(d), lo, b)
      && ShopChainOk(d, m, lo, earlier, rest)
  }

  lemma TxShopSince(d: Desk, x: Shop, lo: nat, b: Block, tx: Tx)
    requires Since(x.engine, lo) && (Creates(AnyHost(d), tx) ==> lo <= b.daa)
    ensures Since(ShopTx(d, x, b, tx).0.engine, lo)
  {
    assert Creates(HostAt(d, x.tables), tx) <==> Creates(AnyHost(d), tx);
    TxSince(HostAt(d, x.tables), x.engine, lo, b, tx);
  }

  lemma {:induction false} TxsShopSince(d: Desk, x: Shop, lo: nat, b: Block, txs: seq<Tx>)
    requires Since(x.engine, lo) && forall tx :: tx in txs && Creates(AnyHost(d), tx) ==> lo <= b.daa
    ensures Since(ShopTxs(d, x, b, txs).0.engine, lo)
    decreases |txs|
  {
    if txs != [] {
      var tx, shorter := txs[|txs| - 1], txs[..|txs| - 1];
      TxsShopSince(d, x, lo, b, shorter);
      assert tx in txs && (Creates(AnyHost(d), tx) ==> lo <= b.daa);
      TxShopSince(d, ShopTxs(d, x, b, shorter).0, lo, b, tx);
    }
  }

  lemma AcceptSince(d: Desk, x: Shop, lo: nat, b: Block)
    requires Since(x.engine, lo) && BlockInWindow(AnyHost(d), lo, b)
    ensures Since(ShopAccept(d, x, b).engine, lo)
  {
    TxsShopSince(d, x.(engine := Filter(x.engine, b.daa)), lo, b, b.txs);
  }

  lemma {:induction false} RevertsSince(d: Desk, x: Shop, lo: nat, entries: seq<Entry>)
    requires Since(x.engine, lo)
    ensures Since(ShopRevertEntries(d, x, entries).engine, lo)
    decreases |entries|
  {
    if entries != [] {
      var last := |entries| - 1;
      RevertsSince(d, ShopRevertOne(d, x, entries[last].id), lo, entries[..last]);
    }
  }

  lemma {:induction false} ShopChainSound(d: Desk, m: EpisodeId, lo: nat, x: Shop, chain: seq<Block>)
    requires ShopOk(d, m, x) && Since(x.engine, lo) && ShopChainOk(d, m, lo, x.engine.revertMap.Keys, chain)
    ensures ShopOk(d, m, ShopChain(d, x, chain)) && Since(ShopChain(d, x, chain).engine, lo)
    ensures ShopChain(d, x, chain).engine.revertMap.Keys == x.engine.revertMap.Keys + HashesOf(chain)
    decreases |chain|
  {
    if chain != [] {
      var b, rest := chain[|chain| - 1], chain[..|chain| - 1];
      ShopChainSound(d, m, lo, x, rest);
      AcceptOk(d, m, ShopChain(d, x, rest), b);
      AcceptSince(d, ShopChain(d, x, rest), lo, b);
    }
  }

  /** What a run keeps: the shop is good and agrees with the one that was sent the chain alone. */
  ghost predicate ShopDetermined(d: Desk, m: EpisodeId, lo: nat, x0: Shop, x: Shop, chain: seq<Block>) {
    && ShopOk(d, m, x) && Since(x.engine, lo)
    && ShopChainOk(d, m, lo, x0.engine.revertMap.Keys, chain)
    && Agree(x, ShopChain(d, x0, chain))
  }

  lemma AcceptShopDetermined(d: Desk, m: EpisodeId, lo: nat, x0: Shop, x: Shop, chain: seq<Block>, b: Block)
    requires ShopOk(d, m, x0) && Since(x0.engine, lo) && ShopDetermined(d, m, lo, x0, x, chain)
    requires b.hash !in x0.engine.revertMap.Keys + HashesOf(chain)
    requires BlockCreatesOnly(d, m, b) && BlockInWindow(AnyHost(d), lo, b)
    ensures ShopDetermined(d, m, lo, x0, ShopAccept(d, x, b), chain + [b])
  {
    ShopChainSound(d, m, lo, x0, chain);
    AcceptOk(d, m, x, b);
    AcceptSince(d, x, lo, b);
    AcceptAgreesToo(d, m, x, ShopChain(d, x0, chain), lo, b);
    ShopChainExtended(d, m, lo, x0, chain, b);
  }

  lemma ShopChainExtended(d: Desk, m: EpisodeId, lo: nat, x0: Shop, chain: seq<Block>, b: Block)
    requires ShopChainOk(d, m, lo, x0.engine.revertMap.Keys, chain)
    requires b.hash !in x0.engine.revertMap.Keys + HashesOf(chain)
    requires BlockCreatesOnly(d, m, b) && BlockInWindow(AnyHost(d), lo, b)
    ensures ShopChainOk(d, m, lo, x0.engine.revertMap.Keys, chain + [b])
    ensures ShopChain(d, x0, chain + [b]) == ShopAccept(d, ShopChain(d, x0, chain), b)
  {
    assert (chain + [b])[..|chain|] == chain;
  }

  lemma TipShopDetermined(d: Desk, m: EpisodeId, lo: nat, x0: Shop, x: Shop, chain: seq<Block>)
    requires ShopOk(d, m, x0) && Since(x0.engine, lo) && ShopDetermined(d, m, lo, x0, x, chain) && chain != []
    ensures ShopDetermined(d, m, lo, x0, ShopRevert(d, x, chain[|chain| - 1].hash), chain[..|chain| - 1])
  {
    var b, rest := chain[|chain| - 1], chain[..|chain| - 1];
    var y := ShopChain(d, x0, chain);
    ShopChainSound(d, m, lo, x0, rest);
    ShopChainSound(d, m, lo, x0, chain);
    RevertOk(d, m, x, b.hash);
    RevertSince(d, x, lo, b.hash);
    RevertAgrees(d, m, x, y, b.hash);
    var below := ShopChain(d, x0, rest);
    ShopBlockThenRevert(d, m, below, b);
    FilterAgrees(below, lo, b.daa);
    AgreeTransitive(ShopRevert(d, x, b.hash), ShopRevert(d, y, b.hash),
                    below.(engine := Filter(below.engine, b.daa)));
    AgreeTransitive(ShopRevert(d, x, b.hash), below.(engine := Filter(below.engine, b.daa)), below);
  }

  lemma RevertSince(d: Desk, x: Shop, lo: nat, hash: Hash)
    requires Since(x.engine, lo)
    ensures Since(ShopRevert(d, x, hash).engine, lo)
  {
    if hash in x.engine.revertMap {
      RevertsSince(d, x.(engine := x.engine.(revertMap := x.engine.revertMap - {hash})), lo, x.engine.revertMap[hash]);
    }
  }

  lemma UnknownShopDetermined(d: Desk, m: EpisodeId, lo: nat, x0: Shop, x: Shop, chain: seq<Block>, hash: Hash)
    requires ShopOk(d, m, x0) && Since(x0.engine, lo) && ShopDetermined(d, m, lo, x0, x, chain)
    requires hash !in x0.engine.revertMap.Keys + HashesOf(chain)
    ensures ShopRevert(d, x, hash) == x
  {
    ShopChainSound(d, m, lo, x0, chain);
  }

  lemma {:induction false} ShopRunDetermined(
    d: Desk, m: EpisodeId, lo: nat, x0: Shop, x: Shop, chain: seq<Block>, msgs: seq<EngineMsg>)
    requires ShopOk(d, m, x0) && Since(x0.engine, lo) && ShopDetermined(d, m, lo, x0, x, chain)
    requires FollowsAll(x0.engine.revertMap.Keys, chain, msgs)
    requires RunCreatesOnly(d, m, msgs) && InWindow(AnyHost(d), lo, msgs)
    ensures ShopDetermined(d, m, lo, x0, ShopRun(d, x, msgs), ChainAfter(chain, msgs))
    decreases |msgs|
  {
    if msgs != [] {
      assert msgs[0] in msgs && forall msg :: msg in msgs[1..] ==> msg in msgs;
      match msgs[0] {
        case BlkAccepted(b) => AcceptShopDetermined(d, m, lo, x0, x, chain, b);
        case BlkReverted(hash) =>
          if chain != [] && chain[|chain| - 1].hash == hash {
            TipShopDetermined(d, m, lo, x0, x, chain);
          } else {
            UnknownShopDetermined(d, m, lo, x0, x, chain, hash);
          }
      }
      ShopRunDetermined(d, m, lo, x0, ShopStep(d, x, msgs[0]), Next(chain, msgs[0]), msgs[1..]);
    }
  }

  /** However often the chain was reorganised, engine and database hold what they would hold had the
      engine been sent the blocks of the current chain alone, up to `lastUpdate`, the order of
      subscription lists and the filtering clock: as long as creations name one merchant and no
      accepted block is more than a lifetime past its oldest creation. A merchant whose creation was
      reverted, and who is created again, loads what its former life left. */
  lemma ChainDeterminesMerchant(d: Desk, m: EpisodeId, lo: nat, x: Shop, msgs: seq<EngineMsg>)
    requires ShopOk(d, m, x) && Since(x.engine, lo) && FollowsAll(x.engine.revertMap.Keys, [], msgs)
    requires RunCreatesOnly(d, m, msgs) && InWindow(AnyHost(d), lo, msgs)
    ensures Agree(ShopRun(d, x, msgs), ShopRun(d, x, Accepts(ChainAfter([], msgs))))
  {
    AgreeReflexive(x);
    ShopRunDetermined(d, m, lo, x, x, [], msgs);
    ShopChainIsRun(d, x, ChainAfter([], msgs));
  }

  /** A fork inside the window, whether or not the merchant is live, leaves engine and database as they
      were when it is accepted and reverted. */
  lemma ForkInvisibleInWindow(d: Desk, m: EpisodeId, lo: nat, x: Shop, fork: seq<Block>)
    requires ShopOk(d, m, x) && Since(x.engine, lo) && Fresh(x.engine.revertMap.Keys, fork)
    requires forall b :: b in fork ==> BlockCreatesOnly(d, m, b) && BlockInWindow(AnyHost(d), lo, b)
    ensures Agree(ShopRun(d, x, Accepts(fork) + Reverts(fork)), x)
  {
    var msgs := Accepts(fork) + Reverts(fork);
    forall msg | msg in msgs && msg.BlkAccepted? ensures msg.block in fork {
      var i :| 0 <= i < |msgs| && msgs[i] == msg;
      assert i < |fork| ==> msgs[i] == BlkAccepted(fork[i]);
    }
    assert x.engine.revertMap.Keys + HashesOf([]) == x.engine.revertMap.Keys;
    ForkFollows(x.engine.revertMap.Keys, [], fork);
    ChainDeterminesMerchant(d, m, lo, x, msgs);
    assert Accepts([]) == [];
  }

  /** A fork follows the chain, and its end is where it began. */
  lemma {:induction false} ForkFollows(earlier: set<Hash>, chain: seq<Block>, fork: seq<Block>)
    requires Fresh(earlier + HashesOf(chain), fork)
    ensures FollowsAll(earlier, chain, Accepts(fork) + Reverts(fork))
    ensures ChainAfter(chain, Accepts(fork) + Reverts(fork)) == chain
    decreases |fork|
  {
    if fork != [] {
      var b, inner := fork[0], Accepts(fork[1..]) + Reverts(fork[1..]);
      assert (chain + [b])[..|chain|] == chain;
      assert earlier + HashesOf(chain + [b]) == earlier + HashesOf(chain) + {b.hash};
      ForkFollows(earlier, chain + [b], fork[1..]);
      ForkMsgs(fork);
      FollowsPush(earlier, chain + [b], inner, BlkReverted(b.hash));
    }
  }

  lemma ForkMsgs(fork: seq<Block>)
    requires fork != []
    ensures
      var msgs, inner := Accepts(fork) + Reverts(fork), Accepts(fork[1..]) + Reverts(fork[1..]);
      msgs[0] == BlkAccepted(fork[0]) && msgs[1..] == inner + [BlkReverted(fork[0].hash)]
  {
  }

  lemma {:induction false} FollowsPush(earlier: set<Hash>, chain: seq<Block>, msgs: seq<EngineMsg>, msg: EngineMsg)
    requires FollowsAll(earlier, chain, msgs) && Follows(earlier, ChainAfter(chain, msgs), msg)
    ensures FollowsAll(earlier, chain, msgs + [msg])
    ensures ChainAfter(chain, msgs + [msg]) == Next(ChainAfter(chain, msgs), msg)
    decreases |msgs|
  {
    if msgs == [] {
      assert [] + [msg] == [msg] && [msg][1..] == [];
      assert ChainAfter(Next(chain, msg), []) == Next(chain, msg);
    } else {
      assert (msgs + [msg])[1..] == msgs[1..] + [msg];
      FollowsPush(earlier, Next(chain, msgs[0]), msgs[1..], msg);
    }
  }
}
