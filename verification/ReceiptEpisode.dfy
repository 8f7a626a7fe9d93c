/** The merchant episode as the source runs it: fields updated in place and written to storage record
    by record, proved to follow Merchant whoever else writes to the same tables. */
module ReceiptEpisodes {
  import opened Wrappers
  import opened Primitives
  import opened Episodes
  import opened Merchant
  import opened MerchantStorage
  import opened MerchantInvariants
  import opened MerchantRestart
  import opened MerchantDecisions

  class ReceiptEpisode {
    const storage: Storage
    const merchantKeys: seq<PubKey>
    var invoices: map<nat, Invoice>
    var subscriptions: map<nat, Subscription>
    var customers: map<PubKey, CustomerInfo>
    var usedCarrierTxs: set<Hash>

    ghost function View(): Receipts
      reads this
    {
      Receipts(merchantKeys, invoices, subscriptions, customers, usedCarrierTxs)
    }

    constructor (participants: seq<PubKey>, storage: Storage)
      ensures this.storage == storage
      ensures View() == Load(participants, storage.View())
    {
      this.storage := storage;
      merchantKeys := participants;
      invoices := storage.invoices;
      subscriptions := storage.subscriptions;
      customers := storage.customers;
      usedCarrierTxs := Carriers(storage.invoices);
    }

    /** From the state and tables there were, the command was executed and what it writes was written. */
    ghost predicate Ran(was: Receipts, tables: Tables, cmd: MerchantCommand, auth: Option<PubKey>, md: PayloadMetadata,
                        res: Outcome)
      reads this, storage
    {
      (View(), res) == Execute(was, cmd, auth, md) && storage.View() == Stored(tables, was, cmd, auth, md)
    }

    /** The same for a rollback. */
    ghost predicate RolledBack(was: Receipts, tables: Tables, r: MerchantRollback, ok: bool)
      reads this, storage
    {
      (View(), ok) == Rollback(was, r) && storage.View() == StoreRollback(tables, was, r)
    }

    /** The flag loop over the carrier's outputs. */
    method CheckOutputs(outs: seq<TxOutputInfo>, amount: nat) returns (error: Option<MerchantError>)
      ensures error == OutputsError(Some(outs), amount, merchantKeys)
      ensures error.None? <==> Pays(outs, amount, merchantKeys)
      ensures error == Some(InvalidAmount) <==> !Covered(outs, amount)
    {
      OutputsDecide(outs, amount, merchantKeys);
      var amountOk, scriptChecked, scriptOk := false, false, false;
      var allowedScripts := set key | key in merchantKeys :: ScriptOf(key);
      var i := 0;
      while i < |outs|
        invariant 0 <= i <= |outs|
        invariant amountOk <==> exists o :: o in outs[..i] && o.value >= amount
        invariant scriptChecked <==> exists o :: o in outs[..i] && o.value >= amount && o.scriptBytes.Some?
        invariant !scriptOk
        invariant !exists o :: o in outs[..i] && o.value >= amount && PaysMerchant(o, merchantKeys)
      {
        var o := outs[i];
        assert outs[..i + 1] == outs[..i] + [o] && o in outs;
        if o.value >= amount {
          amountOk := true;
          if o.scriptBytes.Some? {
            scriptChecked := true;
            if o.scriptBytes.value in allowedScripts {
              scriptOk := true;
              assert PaysMerchant(o, merchantKeys);
              break;
            }
          }
        }
        i := i + 1;
      }
      assert !scriptOk ==> outs[..i] == outs;
      if scriptChecked && !scriptOk {
        return Some(InvalidScript);
      }
      if !amountOk {
        return Some(InvalidAmount);
      }
      return None;
    }

    method ExecuteCommand(cmd: MerchantCommand, auth: Option<PubKey>, md: PayloadMetadata) returns (res: Outcome)
      modifies this, storage
      ensures Ran(old(View()), old(storage.View()), cmd, auth, md, res)
    {
      match cmd {
        case CreateInvoice(id, amount, memo) => res := ExecuteCreateInvoice(id, amount, memo, auth, md);
        case MarkPaid(id, payer) => res := ExecuteMarkPaid(id, payer, auth, md);
        case AckReceipt(id) => res := ExecuteAckReceipt(id, auth, md);
        case CancelInvoice(id) => res := ExecuteCancelInvoice(id, auth, md);
        case CreateSubscription(id, customer, amount, interval) =>
          res := ExecuteCreateSubscription(id, customer, amount, interval, auth, md);
        case ProcessSubscription(id) => res := ExecuteProcessSubscription(id, auth, md);
        case CancelSubscription(id) => res := ExecuteCancelSubscription(id, auth, md);
      }
    }

    method ExecuteCreateInvoice(id: nat, amount: nat, memo: Option<string>, auth: Option<PubKey>, md: PayloadMetadata)
      returns (res: Outcome)
      modifies this, storage
      ensures Ran(old(View()), old(storage.View()), CreateInvoice(id, amount, memo), auth, md, res)
    {
      if id in invoices {
        return Err(InvalidCommand(Exists));
      }
      if amount == 0 {
        return Err(InvalidCommand(InvalidAmount));
      }
      if auth.None? || auth.value !in merchantKeys {
        return Err(Unauthorized);
      }
      var created := Invoice(id, amount, memo, md.acceptingTime, md.acceptingTime, Open, None, None);
      invoices := invoices[id := created];
      storage.PutInvoice(created);
      return Ok(UndoCreate(id));
    }

    method ExecuteMarkPaid(id: nat, payer: PubKey, auth: Option<PubKey>, md: PayloadMetadata) returns (res: Outcome)
      modifies this, storage
      ensures Ran(old(View()), old(storage.View()), MarkPaid(id, payer), auth, md, res)
    {
      if auth != Some(payer) {
        return Err(Unauthorized);
      }
      if md.txId in usedCarrierTxs {
        return Err(InvalidCommand(DuplicatePayment));
      }
      if id !in invoices {
        return Err(InvalidCommand(NotFound));
      }
      var inv := invoices[id];
      if inv.status == Canceled {
        return Err(InvalidCommand(AlreadyCanceled));
      }
      if inv.status == Acked || inv.status == Paid {
        return Err(InvalidCommand(AlreadyPaid));
      }
      if payer !in customers {
        return Err(InvalidCommand(UnknownCustomer));
      }
      if md.txOutputs.Some? {
        var error := CheckOutputs(md.txOutputs.value, inv.amount);
        if error.Some? {
          return Err(InvalidCommand(error.value));
        }
      }
      inv := inv.(status := Paid, lastUpdate := md.acceptingTime, payer := Some(payer), carrierTx := Some(md.txId));
      invoices := invoices[id := inv];
      usedCarrierTxs := usedCarrierTxs + {md.txId};
      var entry := customers[payer];
      if id !in entry.invoices {
        entry := entry.(invoices := entry.invoices + [id]);
      }
      customers := customers[payer := entry];
      storage.PutInvoice(inv);
      storage.PutCustomer(payer, entry);
      return Ok(UndoPaid(id));
    }

    method ExecuteAckReceipt(id: nat, auth: Option<PubKey>, md: PayloadMetadata) returns (res: Outcome)
      modifies this, storage
      ensures Ran(old(View()), old(storage.View()), AckReceipt(id), auth, md, res)
    {
      if id !in invoices {
        return Err(InvalidCommand(NotFound));
      }
      var inv := invoices[id];
      if inv.status == Canceled {
        return Err(InvalidCommand(AlreadyCanceled));
      }
      if inv.status == Acked {
        return Err(InvalidCommand(AlreadyAcked));
      }
      if inv.status != Paid {
        return Err(InvalidCommand(NotFound));
      }
      inv := inv.(status := Acked, lastUpdate := md.acceptingTime);
      invoices := invoices[id := inv];
      storage.PutInvoice(inv);
      return Ok(UndoAck(id));
    }

    method ExecuteCancelInvoice(id: nat, auth: Option<PubKey>, md: PayloadMetadata) returns (res: Outcome)
      modifies this, storage
      ensures Ran(old(View()), old(storage.View()), CancelInvoice(id), auth, md, res)
    {
      if id !in invoices {
        return Err(InvalidCommand(NotFound));
      }
      var inv := invoices[id];
      if inv.status == Canceled {
        return Err(InvalidCommand(AlreadyCanceled));
      }
      if inv.status == Paid || inv.status == Acked {
        return Err(InvalidCommand(AlreadyPaid));
      }
      inv := inv.(status := Canceled, lastUpdate := md.acceptingTime);
      invoices := invoices[id := inv];
      storage.PutInvoice(inv);
      return Ok(UndoCancel(id));
    }

    method ExecuteCreateSubscription(id: nat, customer: PubKey, amount: nat, interval: nat,
                                     auth: Option<PubKey>, md: PayloadMetadata) returns (res: Outcome)
      modifies this, storage
      ensures Ran(old(View()), old(storage.View()), CreateSubscription(id, customer, amount, interval), auth, md, res)
    {
      if id in subscriptions {
        return Err(InvalidCommand(SubscriptionExists));
      }
      if amount == 0 || interval == 0 {
        return Err(InvalidCommand(InvalidAmount));
      }
      if auth.None? || auth.value !in merchantKeys {
        return Err(Unauthorized);
      }
      if customer !in customers {
        return Err(InvalidCommand(UnknownCustomer));
      }
      var info := customers[customer];
      var sub := Subscription(id, customer, amount, interval, md.acceptingTime + interval);
      info := info.(subscriptions := info.subscriptions + [id]);
      customers := customers[customer := info];
      storage.PutCustomer(customer, info);
      subscriptions := subscriptions[id := sub];
      storage.PutSubscription(sub);
      return Ok(UndoCreateSubscription(id));
    }

    method ExecuteProcessSubscription(id: nat, auth: Option<PubKey>, md: PayloadMetadata) returns (res: Outcome)
      modifies this, storage
      ensures Ran(old(View()), old(storage.View()), ProcessSubscription(id), auth, md, res)
    {
      if id !in subscriptions {
        return Err(InvalidCommand(SubscriptionNotFound));
      }
      var sub := subscriptions[id];
      var prev := sub.nextRun;
      sub := sub.(nextRun := md.acceptingTime + sub.interval);
      subscriptions := subscriptions[id := sub];
      storage.PutSubscription(sub);
      return Ok(UndoProcessSubscription(id, prev));
    }

    method ExecuteCancelSubscription(id: nat, auth: Option<PubKey>, md: PayloadMetadata) returns (res: Outcome)
      modifies this, storage
      ensures Ran(old(View()), old(storage.View()), CancelSubscription(id), auth, md, res)
    {
      if id !in subscriptions {
        return Err(InvalidCommand(SubscriptionNotFound));
      }
      var sub := subscriptions[id];
      subscriptions := subscriptions - {id};
      if sub.customer in customers {
        var info := customers[sub.customer];
        info := info.(subscriptions := Without(info.subscriptions, id));
        customers := customers[sub.customer := info];
        storage.PutCustomer(sub.customer, info);
      }
      storage.DeleteSubscription(id);
      return Ok(UndoCancelSubscription(sub));
    }

    method RollbackCommand(rollback: MerchantRollback) returns (ok: bool)
      modifies this, storage
      ensures RolledBack(old(View()), old(storage.View()), rollback, ok)
    {
      match rollback {
        case UndoCreate(id) =>
          storage.DeleteInvoice(id);
          ok := id in invoices;
          invoices := invoices - {id};
        case UndoPaid(id) => ok := RollbackPaid(id);
        case UndoAck(id) => ok := RollbackStatus(id, Paid);
        case UndoCancel(id) => ok := RollbackStatus(id, Open);
        case UndoCreateSubscription(id) => ok := RollbackCreateSubscription(id);
        case UndoProcessSubscription(id, prevNextRun) =>
          if id !in subscriptions {
            return false;
          }
          var sub := subscriptions[id].(nextRun := prevNextRun);
          subscriptions := subscriptions[id := sub];
          storage.PutSubscription(sub);
          ok := true;
        case UndoCancelSubscription(sub) =>
          RollbackCancelSubscription(sub);
          ok := true;
      }
    }

    method RollbackPaid(id: nat) returns (ok: bool)
      modifies this, storage
      ensures RolledBack(old(View()), old(storage.View()), UndoPaid(id), ok)
    {
      if id !in invoices {
        return false;
      }
      var inv := invoices[id];
      if inv.payer.Some? {
        var payer := inv.payer.value;
        if payer in customers {
          var info := customers[payer];
          info := info.(invoices := Without(info.invoices, id));
          customers := customers[payer := info];
          storage.PutCustomer(payer, info);
        }
      }
      if inv.carrierTx.Some? {
        usedCarrierTxs := usedCarrierTxs - {inv.carrierTx.value};
      }
      inv := inv.(status := Open, payer := None, carrierTx := None);
      invoices := invoices[id := inv];
      storage.PutInvoice(inv);
      return true;
    }

    method RollbackStatus(id: nat, status: InvoiceStatus) returns (ok: bool)
      modifies this, storage
      requires status == Paid || status == Open
      ensures RolledBack(old(View()), old(storage.View()), if status == Paid then UndoAck(id) else UndoCancel(id), ok)
    {
      if id !in invoices {
        return false;
      }
      var inv := invoices[id].(status := status);
      invoices := invoices[id := inv];
      storage.PutInvoice(inv);
      return true;
    }

    method RollbackCreateSubscription(id: nat) returns (ok: bool)
      modifies this, storage
      ensures RolledBack(old(View()), old(storage.View()), UndoCreateSubscription(id), ok)
    {
      storage.DeleteSubscription(id);
      if id !in subscriptions {
        assert subscriptions - {id} == subscriptions;
        return false;
      }
      var sub := subscriptions[id];
      subscriptions := subscriptions - {id};
      if sub.customer in customers {
        var info := customers[sub.customer];
        info := info.(subscriptions := Without(info.subscriptions, id));
        customers := customers[sub.customer := info];
        storage.PutCustomer(sub.customer, info);
      }
      return true;
    }

    method RollbackCancelSubscription(sub: Subscription)
      modifies this, storage
      ensures RolledBack(old(View()), old(storage.View()), UndoCancelSubscription(sub), true)
    {
      subscriptions := subscriptions[sub.id := sub];
      storage.PutSubscription(sub);
      if sub.customer in customers {
        var info := customers[sub.customer];
        if sub.id !in info.subscriptions {
          info := info.(subscriptions := info.subscriptions + [sub.id]);
          customers := customers[sub.customer := info];
          storage.PutCustomer(sub.customer, info);
        }
      }
    }
  }

  /** A process that starts, works through commands and rollbacks, and is started again on the tables
      it left: the second episode is the first as it was left. */
  method WorkAndRestart(keys: seq<PubKey>, storage: Storage, ops: seq<MerchantOp>)
    returns (episode: ReceiptEpisode, again: ReceiptEpisode)
    requires TablesOk(storage.View())
    modifies storage
    ensures fresh(episode) && fresh(again) && again != episode
    ensures episode.View() == RunOps(Started(keys, old(storage.View())), ops).merchant
    ensures again.View() == episode.View()
  {
    ghost var tables := storage.View();
    episode := new ReceiptEpisode(keys, storage);
    var stack: seq<MerchantRollback> := [];
    var i := 0;
    assert ops[0..] == ops;
    while i < |ops|
      invariant 0 <= i <= |ops| && fresh(episode) && episode.storage == storage
      invariant RunOps(Till(episode.View(), storage.View(), stack), ops[i..]) == RunOps(Started(keys, tables), ops)
    {
      assert ops[i..][0] == ops[i] && ops[i..][1..] == ops[i + 1..];
      match ops[i] {
        case Do(cmd, auth, md) =>
          var res := episode.ExecuteCommand(cmd, auth, md);
          if res.Ok? {
            stack := stack + [res.value];
          }
        case Undo =>
          if stack != [] {
            var last := |stack| - 1;
            var ok := episode.RollbackCommand(stack[last]);
            stack := stack[..last];
          }
      }
      i := i + 1;
    }
    RestartEquivalence(keys, tables, ops);
    again := new ReceiptEpisode(keys, storage);
  }
}
