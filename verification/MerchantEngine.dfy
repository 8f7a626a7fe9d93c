/** Engines of merchants, with the process's one database threaded through the run: creating a
    merchant loads the tables as they stand, executing and rolling back write them. */
module MerchantEngine {
  import opened Wrappers
  import opened Primitives
  import opened Episodes
  import opened EngineSpec
  import opened EngineReorg
  import opened Merchant
  import opened MerchantInvariants
  import opened MerchantUndo
  import opened MerchantDatabase

  type MerchantMsg = EpisodeMessage<MerchantCommand>
  type MerchantHost = Host<Receipts, MerchantCommand, MerchantRollback, MerchantError>
  type MerchantState = State<Receipts, MerchantRollback>

  /** What an engine of merchants is run under. */
  datatype Desk = Desk(parse: seq<Byte> -> Option<MerchantMsg>, verify: (PubKey, MerchantCommand, Sig) -> bool)

  datatype Shop = Shop(engine: MerchantState, tables: Tables)

  /** The engine's host while the tables are as given. */
  function HostAt(d: Desk, tables: Tables): MerchantHost {
    Host(Impl(tables), d.parse, d.verify)
  }

  function Opened(tables: Tables): Shop {
    Shop(Initial(), tables)
  }

  /** One transaction, with what an accepted command writes. */
  function ShopTx(d: Desk, x: Shop, b: Block, tx: Tx): (Shop, Option<Entry>) {
    var (e', entry) := RunTx(HostAt(d, x.tables), x.engine, b, tx);
    (Shop(e', TablesAfter(d, x, b, tx)), entry)
  }

  function TablesAfter(d: Desk, x: Shop, b: Block, tx: Tx): Tables {
    var md := MetadataOf(b, tx);
    match d.parse(tx.payload)
    case Some(SignedCommand(id, cmd, pk, sig)) =>
      if id in x.engine.episodes && d.verify(pk, cmd, sig)
      then Stored(x.tables, x.engine.episodes[id].episode, cmd, Some(pk), md) else x.tables
    case Some(UnsignedCommand(id, cmd)) =>
      if id in x.engine.episodes then Stored(x.tables, x.engine.episodes[id].episode, cmd, None, md) else x.tables
    case _ => x.tables
  }

  function ShopTxs(d: Desk, x: Shop, b: Block, txs: seq<Tx>): (Shop, seq<Entry>)
    decreases |txs|
  {
    if txs == [] then (x, [])
    else
      var (x1, entries) := ShopTxs(d, x, b, txs[..|txs| - 1]);
      var (x2, entry) := ShopTx(d, x1, b, txs[|txs| - 1]);
      (x2, Remember(entries, entry))
  }

  function ShopAccept(d: Desk, x: Shop, b: Block): Shop {
    var (x1, entries) := ShopTxs(d, x.(engine := Filter(x.engine, b.daa)), b, b.txs);
    x1.(engine := x1.engine.(revertMap := x1.engine.revertMap[b.hash := entries]))
  }

  function ShopRevertOne(d: Desk, x: Shop, id: EpisodeId): Shop {
    var written :=
      if id in x.engine.episodes && x.engine.episodes[id].stack != []
      then
        var w := x.engine.episodes[id];
        StoreRollback(x.tables, w.episode, w.stack[|w.stack| - 1])
      else x.tables;
    Shop(RevertOne(HostAt(d, x.tables), x.engine, id), written)
  }

  function ShopRevertEntries(d: Desk, x: Shop, entries: seq<Entry>): Shop
    decreases |entries|
  {
    if entries == [] then x
    else
      var last := |entries| - 1;
      ShopRevertEntries(d, ShopRevertOne(d, x, entries[last].id), entries[..last])
  }

  function ShopRevert(d: Desk, x: Shop, hash: Hash): Shop {
    if hash !in x.engine.revertMap then x
    else
      ShopRevertEntries(d, x.(engine := x.engine.(revertMap := x.engine.revertMap - {hash})), x.engine.revertMap[hash])
  }

  function ShopStep(d: Desk, x: Shop, msg: EngineMsg): Shop
    requires !msg.Exit?
  {
    match msg
    case BlkAccepted(b) => ShopAccept(d, x, b)
    case BlkReverted(hash) => ShopRevert(d, x, hash)
  }

  function ShopRun(d: Desk, x: Shop, msgs: seq<EngineMsg>): Shop
    decreases |msgs|
  {
    if msgs == [] || msgs[0].Exit? then x else ShopRun(d, ShopStep(d, x, msgs[0]), msgs[1..])
  }

  /** All creations name one id. Whoever may send them, only that merchant ever lives. */

  predicate CreatesOnly(d: Desk, m: EpisodeId, tx: Tx) {
    d.parse(tx.payload).Some? && d.parse(tx.payload).value.NewEpisode? ==> d.parse(tx.payload).value.id == m
  }

  ghost predicate BlockCreatesOnly(d: Desk, m: EpisodeId, b: Block) {
    forall tx :: tx in b.txs ==> CreatesOnly(d, m, tx)
  }

  ghost predicate RunCreatesOnly(d: Desk, m: EpisodeId, msgs: seq<EngineMsg>) {
    forall msg :: msg in msgs && msg.BlkAccepted? ==> BlockCreatesOnly(d, m, msg.block)
  }

  function AnyHost(d: Desk): MerchantHost {
    HostAt(d, NO_TABLES)
  }

  lemma AnyHostUndoes(d: Desk)
    ensures Undoes(AnyHost(d).ep, Rules())
  {
    NoTablesUndoes();
  }

  /** The invariant: every pending rollback of the merchant would succeed, its indices agree, and the
      tables hold what it holds; while it is not live they hold what agrees. */
  ghost predicate ShopOk(d: Desk, m: EpisodeId, x: Shop) {
    && Sound(AnyHost(d), Rules(), x.engine)
    && x.engine.episodes.Keys <= {m}
    && TablesOk(x.tables)
    && (m in x.engine.episodes ==> x.tables == TablesOf(x.engine.episodes[m].episode))
  }

  lemma RevertOneAnyTables(d: Desk, e: MerchantState, tables: Tables, id: EpisodeId)
    ensures RevertOne(HostAt(d, tables), e, id) == RevertOne(AnyHost(d), e, id)
  {
  }

  lemma PerformAnyTables(
    d: Desk, e: MerchantState, tables: Tables, id: EpisodeId, cmd: MerchantCommand, auth: Option<PubKey>,
    md: PayloadMetadata)
    ensures Perform(HostAt(d, tables), e, id, cmd, auth, md) == Perform(AnyHost(d), e, id, cmd, auth, md)
  {
  }

  lemma OpenedOk(d: Desk, m: EpisodeId, tables: Tables)
    requires TablesOk(tables)
    ensures ShopOk(d, m, Opened(tables))
  {
  }

  lemma PerformOk(d: Desk, m: EpisodeId, x: Shop, cmd: MerchantCommand, auth: Option<PubKey>, md: PayloadMetadata)
    requires ShopOk(d, m, x) && m in x.engine.episodes
    ensures
      var s := x.engine.episodes[m].episode;
      ShopOk(d, m, Shop(Perform(AnyHost(d), x.engine, m, cmd, auth, md).0, Stored(x.tables, s, cmd, auth, md)))
  {
    var w := x.engine.episodes[m];
    AnyHostUndoes(d);
    assert Inv(w.episode) by {
      assert Undoable(AnyHost(d).ep, Rules(), w.episode, w.stack);
    }
    PerformSound(AnyHost(d), Rules(), x.engine, m, cmd, auth, md);
    CommandMirrored(w.episode, cmd, auth, md);
    ExecuteInv(w.episode, cmd, auth, md);
    TablesOkOf(Execute(w.episode, cmd, auth, md).0);
  }

  lemma CreateOk(d: Desk, m: EpisodeId, x: Shop, ps: seq<PubKey>, md: PayloadMetadata)
    requires ShopOk(d, m, x)
    ensures ShopOk(d, m, Shop(Create(HostAt(d, x.tables), x.engine, m, ps, md).0, x.tables))
  {
    if m !in x.engine.episodes {
      LoadInv(ps, x.tables);
      assert Undoable(AnyHost(d).ep, Rules(), Load(ps, x.tables), []);
      assert TablesOf(Load(ps, x.tables)) == x.tables;
    }
  }

  lemma TxOk(d: Desk, m: EpisodeId, x: Shop, b: Block, tx: Tx)
    requires ShopOk(d, m, x) && CreatesOnly(d, m, tx)
    ensures ShopOk(d, m, ShopTx(d, x, b, tx).0)
  {
    var md := MetadataOf(b, tx);
    match d.parse(tx.payload) {
      case Some(NewEpisode(id, ps)) => CreateOk(d, m, x, ps, md);
      case Some(SignedCommand(id, cmd, pk, sig)) =>
        if id in x.engine.episodes && d.verify(pk, cmd, sig) {
          PerformAnyTables(d, x.engine, x.tables, id, cmd, Some(pk), md);
          PerformOk(d, m, x, cmd, Some(pk), md);
        }
      case Some(UnsignedCommand(id, cmd)) =>
        if id in x.engine.episodes {
          PerformAnyTables(d, x.engine, x.tables, id, cmd, None, md);
          PerformOk(d, m, x, cmd, None, md);
        }
      case _ =>
    }
  }

  lemma RevertOneOk(d: Desk, m: EpisodeId, x: Shop, id: EpisodeId)
    requires ShopOk(d, m, x)
    ensures ShopOk(d, m, ShopRevertOne(d, x, id))
  {
    if id in x.engine.episodes {
      var w := x.engine.episodes[m];
      assert Undoable(AnyHost(d).ep, Rules(), w.episode, w.stack);
      RevertOneAnyTables(d, x.engine, x.tables, id);
      RevertOneSound(AnyHost(d), Rules(), x.engine, id);
      if w.stack != [] {
        var r := w.stack[|w.stack| - 1];
        RollbackMirrored(w.episode, r);
        assert Inv(Rollback(w.episode, r).0) by {
          assert Undoable(AnyHost(d).ep, Rules(), Rollback(w.episode, r).0, w.stack[..|w.stack| - 1]);
        }
        TablesOkOf(Rollback(w.episode, r).0);
      }
    }
  }

  lemma {:induction false} TxsOk(d: Desk, m: EpisodeId, x: Shop, b: Block, txs: seq<Tx>)
    requires ShopOk(d, m, x) && forall tx :: tx in txs ==> CreatesOnly(d, m, tx)
    ensures ShopOk(d, m, ShopTxs(d, x, b, txs).0)
    ensures ShopTxs(d, x, b, txs).0.engine.revertMap == x.engine.revertMap
    decreases |txs|
  {
    if txs != [] {
      TxsOk(d, m, x, b, txs[..|txs| - 1]);
      assert txs[|txs| - 1] in txs;
      TxOk(d, m, ShopTxs(d, x, b, txs[..|txs| - 1]).0, b, txs[|txs| - 1]);
      TxFrame(d, ShopTxs(d, x, b, txs[..|txs| - 1]).0, b, txs[|txs| - 1]);
    }
  }

  lemma TxFrame(d: Desk, x: Shop, b: Block, tx: Tx)
    ensures ShopTx(d, x, b, tx).0.engine.revertMap == x.engine.revertMap
    ensures ShopTx(d, x, b, tx).0.engine.nextFiltering == x.engine.nextFiltering
  {
  }

  lemma {:induction false} RevertEntriesOk(d: Desk, m: EpisodeId, x: Shop, entries: seq<Entry>)
    requires ShopOk(d, m, x)
    ensures ShopOk(d, m, ShopRevertEntries(d, x, entries))
    ensures ShopRevertEntries(d, x, entries).engine.revertMap == x.engine.revertMap
    decreases |entries|
  {
    if entries != [] {
      var last := |entries| - 1;
      RevertOneOk(d, m, x, entries[last].id);
      RevertEntriesOk(d, m, ShopRevertOne(d, x, entries[last].id), entries[..last]);
    }
  }

  /** Pruning leaves the tables as the merchant left them. */
  lemma FilterOk(d: Desk, m: EpisodeId, x: Shop, daa: nat)
    requires ShopOk(d, m, x)
    ensures ShopOk(d, m, x.(engine := Filter(x.engine, daa)))
  {
  }

  lemma AcceptOk(d: Desk, m: EpisodeId, x: Shop, b: Block)
    requires ShopOk(d, m, x) && BlockCreatesOnly(d, m, b)
    ensures ShopOk(d, m, ShopAccept(d, x, b))
    ensures ShopAccept(d, x, b).engine.revertMap.Keys == x.engine.revertMap.Keys + {b.hash}
  {
    FilterOk(d, m, x, b.daa);
    TxsOk(d, m, x.(engine := Filter(x.engine, b.daa)), b, b.txs);
  }

  lemma RevertOk(d: Desk, m: EpisodeId, x: Shop, hash: Hash)
    requires ShopOk(d, m, x)
    ensures ShopOk(d, m, ShopRevert(d, x, hash))
  {
    if hash in x.engine.revertMap {
      var x1 := x.(engine := x.engine.(revertMap := x.engine.revertMap - {hash}));
      assert ShopOk(d, m, x1);
      RevertEntriesOk(d, m, x1, x.engine.revertMap[hash]);
    }
  }

  /** In every state of every run whose creations name one merchant, whatever is accepted, pruned,
      created again and reverted, in whatever order: its indices agree, its pending rollbacks would
      all succeed, and a restart from the tables would find it as it is. */
  lemma {:induction false} OneMerchantAgrees(d: Desk, m: EpisodeId, x: Shop, msgs: seq<EngineMsg>)
    requires ShopOk(d, m, x) && RunCreatesOnly(d, m, msgs)
    ensures ShopOk(d, m, ShopRun(d, x, msgs))
    decreases |msgs|
  {
    if msgs == [] || msgs[0].Exit? {
    } else {
      assert msgs[0] in msgs && forall msg :: msg in msgs[1..] ==> msg in msgs;
      match msgs[0] {
        case BlkAccepted(b) => AcceptOk(d, m, x, b);
        case BlkReverted(hash) => RevertOk(d, m, x, hash);
      }
      OneMerchantAgrees(d, m, ShopStep(d, x, msgs[0]), msgs[1..]);
    }
  }

  /** What that means for the live merchant. */
  lemma LiveMerchant(d: Desk, m: EpisodeId, x: Shop)
    requires ShopOk(d, m, x) && m in x.engine.episodes
    ensures
      var w := x.engine.episodes[m];
      && Inv(w.episode) && RollbackAll(Impl(x.tables), w.episode, w.stack).1
      && Load(w.episode.merchantKeys, x.tables) == w.episode
  {
    var w := x.engine.episodes[m];
    assert Undoable(AnyHost(d).ep, Rules(), w.episode, w.stack);
    RestartRebuilds(w.episode);
    PoppedAnyTables(x.tables, w.episode, w.stack);
  }

  lemma {:induction false} PoppedAnyTables(tables: Tables, s: Receipts, stack: seq<MerchantRollback>)
    requires Undoable(Impl(NO_TABLES), Rules(), s, stack)
    ensures RollbackAll(Impl(tables), s, stack).1
    decreases |stack|
  {
    if stack != [] {
      PoppedAnyTables(tables, Rollback(s, stack[|stack| - 1]).0, stack[..|stack| - 1]);
    }
  }

  /** One transaction at a time: what a creation and a signed command do. */

  ghost predicate SignedBy(d: Desk, tx: Tx, id: EpisodeId, cmd: MerchantCommand, key: PubKey) {
    match d.parse(tx.payload)
    case Some(SignedCommand(i, o, pk, sig)) => i == id && o == cmd && pk == key && d.verify(pk, cmd, sig)
    case _ => false
  }

  /** A creation loads the tables as they stand, and writes nothing. */
  lemma Creation(d: Desk, x: Shop, b: Block, tx: Tx, id: EpisodeId, ps: seq<PubKey>)
    requires d.parse(tx.payload) == Some(NewEpisode(id, ps)) && id !in x.engine.episodes
    ensures
      var x' := ShopTx(d, x, b, tx).0;
      && x'.engine.episodes == x.engine.episodes[id := Wrapper(Load(ps, x.tables), [])]
      && x'.tables == x.tables
  {
  }

  /** A signed command runs on its episode alone, and writes what it writes. */
  lemma Command(d: Desk, x: Shop, b: Block, tx: Tx, id: EpisodeId, cmd: MerchantCommand, key: PubKey)
    requires SignedBy(d, tx, id, cmd, key) && id in x.engine.episodes
    ensures
      var x', s, md := ShopTx(d, x, b, tx).0, x.engine.episodes[id].episode, MetadataOf(b, tx);
      && x'.engine.episodes.Keys == x.engine.episodes.Keys
      && x'.engine.episodes[id].episode == Execute(s, cmd, Some(key), md).0
      && (forall other :: other in x.engine.episodes && other != id ==>
            x'.engine.episodes[other] == x.engine.episodes[other])
      && x'.tables == Stored(x.tables, s, cmd, Some(key), md)
  {
  }
}
