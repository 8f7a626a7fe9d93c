/** Restarting the merchant from its tables. */
module MerchantRestart {
  import opened Wrappers
  import opened Primitives
  import opened Episodes
  import opened Merchant
  import opened MerchantInvariants
  import opened MerchantUndo
  import opened MerchantDatabase

  /** Runs of commands and last-in-first-out rollbacks, with what they write to the tables. */

  datatype MerchantOp = Do(cmd: MerchantCommand, auth: Option<PubKey>, md: PayloadMetadata) | Undo

  datatype Till = Till(merchant: Receipts, tables: Tables, stack: seq<MerchantRollback>)

  function RunOp(x: Till, op: MerchantOp): Till {
    match op
    case Do(cmd, auth, md) =>
      var (s', res) := Execute(x.merchant, cmd, auth, md);
      Till(s', Stored(x.tables, x.merchant, cmd, auth, md), if res.Ok? then x.stack + [res.value] else x.stack)
    case Undo =>
      if x.stack == [] then x
      else
        var last := |x.stack| - 1;
        Till(Rollback(x.merchant, x.stack[last]).0, StoreRollback(x.tables, x.merchant, x.stack[last]), x.stack[..last])
  }

  function RunOps(x: Till, ops: seq<MerchantOp>): Till
    decreases |ops|
  {
    if ops == [] then x else RunOps(RunOp(x, ops[0]), ops[1..])
  }

  /** The tables hold what the merchant holds, and every pending rollback would succeed. */
  ghost predicate TillOk(x: Till) {
    Undoable(Impl(NO_TABLES), Rules(), x.merchant, x.stack) && x.tables == TablesOf(x.merchant)
  }

  lemma KeysStay(x: Till, op: MerchantOp)
    ensures RunOp(x, op).merchant.merchantKeys == x.merchant.merchantKeys
  {
  }

  lemma DoOk(x: Till, cmd: MerchantCommand, auth: Option<PubKey>, md: PayloadMetadata)
    requires TillOk(x)
    ensures TillOk(RunOp(x, Do(cmd, auth, md)))
  {
    CommandMirrored(x.merchant, cmd, auth, md);
    StillUndoable(x.merchant, x.stack, cmd, auth, md);
  }

  lemma UndoOk(x: Till)
    requires TillOk(x)
    ensures TillOk(RunOp(x, Undo))
  {
    if x.stack != [] {
      RollbackMirrored(x.merchant, x.stack[|x.stack| - 1]);
    }
  }

  lemma StillUndoable(
    s: Receipts, stack: seq<MerchantRollback>, cmd: MerchantCommand, auth: Option<PubKey>, md: PayloadMetadata)
    requires Undoable(Impl(NO_TABLES), Rules(), s, stack)
    ensures
      var (s', res) := Execute(s, cmd, auth, md);
      Undoable(Impl(NO_TABLES), Rules(), s', if res.Ok? then stack + [res.value] else stack)
  {
    if Execute(s, cmd, auth, md).1.Ok? {
      NoTablesUndoes();
      UndoablePush(Impl(NO_TABLES), Rules(), s, stack, cmd, auth, md);
    }
  }

  lemma {:induction false} OpsOk(x: Till, ops: seq<MerchantOp>)
    requires TillOk(x)
    ensures TillOk(RunOps(x, ops)) && RunOps(x, ops).merchant.merchantKeys == x.merchant.merchantKeys
    decreases |ops|
  {
    if ops != [] {
      KeysStay(x, ops[0]);
      match ops[0] {
        case Do(cmd, auth, md) => DoOk(x, cmd, auth, md);
        case Undo => UndoOk(x);
      }
      OpsOk(RunOp(x, ops[0]), ops[1..]);
    }
  }

  function Started(keys: seq<PubKey>, tables: Tables): Till {
    Till(Load(keys, tables), tables, [])
  }

  /** After any commands and rollbacks, in any order, that start from tables in agreement: loading
      the tables they left, with the same keys, gives the merchant they left, used carriers included. */
  lemma RestartEquivalence(keys: seq<PubKey>, tables: Tables, ops: seq<MerchantOp>)
    requires TablesOk(tables)
    ensures
      var x := RunOps(Started(keys, tables), ops);
      Load(keys, x.tables) == x.merchant
  {
    LoadInv(keys, tables);
    OpsOk(Started(keys, tables), ops);
    RestartRebuilds(RunOps(Started(keys, tables), ops).merchant);
  }

  /** When a merchant's creation is reverted, after all its commands, the tables it leaves are loaded
      by the next merchant as if the first had never been. */
  lemma RevertedMerchantLeavesNoTrace(
    tables: Tables, keys: seq<PubKey>, next: seq<PubKey>, calls: seq<Call<MerchantCommand>>)
    requires TablesOk(tables)
    ensures
      var (s, stack) := ExecuteAll(Impl(tables), Load(keys, tables), calls);
      var left := TablesOf(RollbackAll(Impl(tables), s, stack).0);
      Same(Load(next, left), Load(next, tables))
  {
    MerchantUndoes(tables);
    LoadInv(keys, tables);
    RunThenUndo(Impl(tables), Rules(), Load(keys, tables), calls);
    var (s, stack) := ExecuteAll(Impl(tables), Load(keys, tables), calls);
    var undone := RollbackAll(Impl(tables), s, stack).0;
    assert Same(undone, Load(keys, tables));
    SameCarriers(undone.invoices, tables.invoices);
  }
}
