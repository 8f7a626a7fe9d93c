/** Any number of merchants over one database: exactly when all of them keep their indices and can be
    rolled back. Each works on its own state, so only what a creation loads matters. */
module MerchantTogether {
  import opened Wrappers
  import opened Primitives
  import opened Episodes
  import opened EngineSpec
  import opened EngineReorg
  import opened Merchant
  import opened MerchantInvariants
  import opened MerchantUndo
  import opened MerchantDatabase
  import opened MerchantEngine

  /** Every live merchant's indices agree, and its pending rollbacks would all succeed, each from a
      merchant whose indices agree. */
  ghost predicate AllSound(d: Desk, x: Shop) {
    Sound(AnyHost(d), Rules(), x.engine)
  }

  /** A creation that takes effect finds the tables in agreement. */
  ghost predicate LoadsOk(d: Desk, x: Shop, tx: Tx) {
    match d.parse(tx.payload)
    case Some(NewEpisode(id, _)) => id !in x.engine.episodes ==> TablesOk(x.tables)
    case _ => true
  }

  ghost predicate TxsLoadOk(d: Desk, x: Shop, b: Block, txs: seq<Tx>)
    decreases |txs|
  {
    txs != [] ==>
      var shorter := txs[..|txs| - 1];
      TxsLoadOk(d, x, b, shorter) && LoadsOk(d, ShopTxs(d, x, b, shorter).0, txs[|txs| - 1])
  }

  /** Every creation that takes effect in the run does. */
  ghost predicate RunLoadsOk(d: Desk, x: Shop, msgs: seq<EngineMsg>)
    decreases |msgs|
  {
    msgs != [] && !msgs[0].Exit? ==>
      && (msgs[0].BlkAccepted? ==>
            var b := msgs[0].block;
            TxsLoadOk(d, x.(engine := Filter(x.engine, b.daa)), b, b.txs))
      && RunLoadsOk(d, ShopStep(d, x, msgs[0]), msgs[1..])
  }

  /** All merchants are sound after each transaction of a block, and after each message of a run. */
  ghost predicate TxsSound(d: Desk, x: Shop, b: Block, txs: seq<Tx>)
    decreases |txs|
  {
    AllSound(d, ShopTxs(d, x, b, txs).0) && (txs != [] ==> TxsSound(d, x, b, txs[..|txs| - 1]))
  }

  ghost predicate SoundThroughout(d: Desk, x: Shop, msgs: seq<EngineMsg>)
    decreases |msgs|
  {
    && AllSound(d, x)
    && (msgs != [] && !msgs[0].Exit? ==>
          && (msgs[0].BlkAccepted? ==>
                var b := msgs[0].block;
                TxsSound(d, x.(engine := Filter(x.engine, b.daa)), b, b.txs))
          && SoundThroughout(d, ShopStep(d, x, msgs[0]), msgs[1..]))
  }

  /** Whose keys are loaded with the tables makes no difference. */
  lemma LoadInvIff(keys: seq<PubKey>, tables: Tables)
    ensures Inv(Load(keys, tables)) <==> TablesOk(tables)
  {
    if TablesOk(tables) {
      LoadInv(keys, tables);
    }
    if Inv(Load(keys, tables)) {
      TablesOkOf(Load(keys, tables));
      assert TablesOf(Load(keys, tables)) == tables;
    }
  }

  lemma CreationSoundIff(d: Desk, x: Shop, id: EpisodeId, ps: seq<PubKey>, md: PayloadMetadata)
    requires AllSound(d, x) && id !in x.engine.episodes
    ensures Sound(AnyHost(d), Rules(), Create(HostAt(d, x.tables), x.engine, id, ps, md).0) <==> TablesOk(x.tables)
  {
    LoadInvIff(ps, x.tables);
    var e', fresh' := Create(HostAt(d, x.tables), x.engine, id, ps, md).0, Load(ps, x.tables);
    assert e'.episodes[id] == Wrapper(fresh', []);
    assert Undoable(AnyHost(d).ep, Rules(), fresh', []) <==> Inv(fresh');
  }

  lemma TxSoundIff(d: Desk, x: Shop, b: Block, tx: Tx)
    requires AllSound(d, x)
    ensures AllSound(d, ShopTx(d, x, b, tx).0) <==> LoadsOk(d, x, tx)
  {
    var md := MetadataOf(b, tx);
    AnyHostUndoes(d);
    match d.parse(tx.payload) {
      case Some(NewEpisode(id, ps)) =>
        if id !in x.engine.episodes {
          CreationSoundIff(d, x, id, ps, md);
        }
      case Some(SignedCommand(id, cmd, pk, sig)) =>
        PerformAnyTables(d, x.engine, x.tables, id, cmd, Some(pk), md);
        PerformSound(AnyHost(d), Rules(), x.engine, id, cmd, Some(pk), md);
      case Some(UnsignedCommand(id, cmd)) =>
        PerformAnyTables(d, x.engine, x.tables, id, cmd, None, md);
        PerformSound(AnyHost(d), Rules(), x.engine, id, cmd, None, md);
      case _ =>
    }
  }

  lemma {:induction false} TxsSoundIff(d: Desk, x: Shop, b: Block, txs: seq<Tx>)
    requires AllSound(d, x)
    ensures TxsSound(d, x, b, txs) <==> TxsLoadOk(d, x, b, txs)
    decreases |txs|
  {
    if txs != [] {
      var shorter := txs[..|txs| - 1];
      TxsSoundIff(d, x, b, shorter);
      if TxsSound(d, x, b, shorter) {
        TxSoundIff(d, ShopTxs(d, x, b, shorter).0, b, txs[|txs| - 1]);
      }
    }
  }

  lemma {:induction false} RevertsSound(d: Desk, x: Shop, entries: seq<Entry>)
    requires AllSound(d, x)
    ensures AllSound(d, ShopRevertEntries(d, x, entries))
    decreases |entries|
  {
    if entries != [] {
      var last := |entries| - 1;
      RevertOneAnyTables(d, x.engine, x.tables, entries[last].id);
      RevertOneSound(AnyHost(d), Rules(), x.engine, entries[last].id);
      RevertsSound(d, ShopRevertOne(d, x, entries[last].id), entries[..last]);
    }
  }

  lemma RevertSound(d: Desk, x: Shop, hash: Hash)
    requires AllSound(d, x)
    ensures AllSound(d, ShopRevert(d, x, hash))
  {
    if hash in x.engine.revertMap {
      var x1 := x.(engine := x.engine.(revertMap := x.engine.revertMap - {hash}));
      assert AllSound(d, x1);
      RevertsSound(d, x1, x.engine.revertMap[hash]);
    }
  }

  lemma FilterSound(d: Desk, x: Shop, daa: nat)
    requires AllSound(d, x)
    ensures AllSound(d, x.(engine := Filter(x.engine, daa)))
  {
  }

  lemma AcceptSoundAfter(d: Desk, x: Shop, b: Block)
    requires TxsSound(d, x.(engine := Filter(x.engine, b.daa)), b, b.txs)
    ensures AllSound(d, ShopAccept(d, x, b))
  {
  }

  /** For any number of merchants and any run, whatever is accepted, pruned, created again and
      reverted: every live merchant's indices agree and its pending rollbacks succeed throughout, if
      and only if every creation that takes effect finds the tables in agreement. */
  lemma {:induction false} MerchantsSoundIff(d: Desk, x: Shop, msgs: seq<EngineMsg>)
    requires AllSound(d, x)
    ensures SoundThroughout(d, x, msgs) <==> RunLoadsOk(d, x, msgs)
    decreases |msgs|
  {
    if msgs == [] || msgs[0].Exit? {
    } else {
      match msgs[0] {
        case BlkAccepted(b) =>
          FilterSound(d, x, b.daa);
          TxsSoundIff(d, x.(engine := Filter(x.engine, b.daa)), b, b.txs);
          if TxsLoadOk(d, x.(engine := Filter(x.engine, b.daa)), b, b.txs) {
            AcceptSoundAfter(d, x, b);
            MerchantsSoundIff(d, ShopStep(d, x, msgs[0]), msgs[1..]);
          }
        case BlkReverted(hash) =>
          RevertSound(d, x, hash);
          MerchantsSoundIff(d, ShopStep(d, x, msgs[0]), msgs[1..]);
      }
    }
  }

  /** What being sound means for a live merchant. */
  lemma SoundMerchant(d: Desk, x: Shop, id: EpisodeId)
    requires AllSound(d, x) && id in x.engine.episodes
    ensures
      var w := x.engine.episodes[id];
      Inv(w.episode) && RollbackAll(Impl(x.tables), w.episode, w.stack).1
  {
    var w := x.engine.episodes[id];
    assert Undoable(AnyHost(d).ep, Rules(), w.episode, w.stack);
    PoppedAnyTables(x.tables, w.episode, w.stack);
  }

  /** Creations that all name one merchant meet the condition: that merchant's tables agree. */

  lemma {:induction false} OneMerchantTxs(d: Desk, m: EpisodeId, x: Shop, b: Block, txs: seq<Tx>)
    requires ShopOk(d, m, x) && forall tx :: tx in txs ==> CreatesOnly(d, m, tx)
    ensures TxsLoadOk(d, x, b, txs)
    decreases |txs|
  {
    if txs != [] {
      OneMerchantTxs(d, m, x, b, txs[..|txs| - 1]);
      TxsOk(d, m, x, b, txs[..|txs| - 1]);
    }
  }

  lemma {:induction false} OneMerchantLoads(d: Desk, m: EpisodeId, x: Shop, msgs: seq<EngineMsg>)
    requires ShopOk(d, m, x) && RunCreatesOnly(d, m, msgs)
    ensures RunLoadsOk(d, x, msgs)
    decreases |msgs|
  {
    if msgs == [] || msgs[0].Exit? {
    } else {
      assert msgs[0] in msgs && forall msg :: msg in msgs[1..] ==> msg in msgs;
      match msgs[0] {
        case BlkAccepted(b) =>
          FilterOk(d, m, x, b.daa);
          OneMerchantTxs(d, m, x.(engine := Filter(x.engine, b.daa)), b, b.txs);
          AcceptOk(d, m, x, b);
        case BlkReverted(hash) => RevertOk(d, m, x, hash);
      }
      OneMerchantLoads(d, m, ShopStep(d, x, msgs[0]), msgs[1..]);
    }
  }
}
