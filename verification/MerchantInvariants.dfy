/** The merchant's redundant indices agree with its invoices and subscriptions. */
module MerchantInvariants {
  import opened Wrappers
  import opened Primitives
  import opened Episodes
  import opened Merchant

  /** The payer and the carrier transaction are known exactly for paid and acknowledged invoices. */
  ghost predicate InvoiceOk(s: Receipts, id: nat)
    requires id in s.invoices
  {
    var inv := s.invoices[id];
    && inv.id == id
    && (inv.payer.Some? <==> inv.status == Paid || inv.status == Acked)
    && (inv.payer.Some? <==> inv.carrierTx.Some?)
    && (inv.payer.Some? ==> inv.payer.value in s.customers)
    && (inv.carrierTx.Some? ==> inv.carrierTx.value in s.usedCarrierTxs)
  }

  /** No two invoices share a carrier. */
  ghost predicate CarriersDistinct(invoices: map<nat, Invoice>) {
    forall i, j :: i in invoices && j in invoices && i != j && invoices[i].carrierTx.Some? ==>
      invoices[i].carrierTx != invoices[j].carrierTx
  }

  ghost predicate SubscriptionOk(s: Receipts, id: nat)
    requires id in s.subscriptions
  {
    s.subscriptions[id].id == id && s.subscriptions[id].customer in s.customers
  }

  /** How often a customer lists an invoice or a subscription: once if that record names it. */

  ghost function PaidBy(s: Receipts, c: PubKey, id: nat): nat {
    if id in s.invoices && s.invoices[id].payer == Some(c) then 1 else 0
  }

  ghost function SubscribedBy(s: Receipts, c: PubKey, id: nat): nat {
    if id in s.subscriptions && s.subscriptions[id].customer == c then 1 else 0
  }

  ghost predicate CustomerOk(s: Receipts, c: PubKey)
    requires c in s.customers
  {
    && (forall id: nat :: multiset(s.customers[c].invoices)[id] == PaidBy(s, c, id))
    && (forall id: nat :: multiset(s.customers[c].subscriptions)[id] == SubscribedBy(s, c, id))
  }

  ghost predicate Inv(s: Receipts) {
    && (forall id :: id in s.invoices ==> InvoiceOk(s, id))
    && (forall id :: id in s.subscriptions ==> SubscriptionOk(s, id))
    && (forall c :: c in s.customers ==> CustomerOk(s, c))
    && CarriersDistinct(s.invoices)
    && s.usedCarrierTxs == Carriers(s.invoices)
  }

  /** Facts about id lists. */

  lemma {:induction false} WithoutCounts(ids: seq<nat>, id: nat)
    ensures multiset(Without(ids, id)) == multiset(ids)[id := 0]
  {
    if ids != [] {
      var last := |ids| - 1;
      WithoutCounts(ids[..last], id);
      assert ids == ids[..last] + [ids[last]];
    }
  }

  lemma {:induction false} WithoutAbsent(ids: seq<nat>, id: nat)
    requires id !in ids
    ensures Without(ids, id) == ids
  {
    if ids != [] {
      var last := |ids| - 1;
      WithoutAbsent(ids[..last], id);
      assert ids == ids[..last] + [ids[last]];
    }
  }

  lemma WithoutAppended(ids: seq<nat>, id: nat)
    requires id !in ids
    ensures Without(ids + [id], id) == ids
  {
    assert (ids + [id])[..|ids|] == ids;
    WithoutAbsent(ids, id);
  }

  lemma Unlisted(ids: seq<nat>, id: nat)
    ensures multiset(ids)[id] == 0 <==> id !in ids
  {
    assert id in multiset(ids) <==> id in ids;
  }

  /** An update that keeps an invoice's carrier keeps the set of carriers. */
  lemma CarriersKept(invoices: map<nat, Invoice>, id: nat, inv: Invoice)
    requires inv.carrierTx == if id in invoices then invoices[id].carrierTx else None
    requires CarriersDistinct(invoices)
    ensures Carriers(invoices[id := inv]) == Carriers(invoices) && CarriersDistinct(invoices[id := inv])
  {
    var invoices' := invoices[id := inv];
    forall tx | tx in Carriers(invoices) ensures tx in Carriers(invoices') {
      var i :| i in invoices && invoices[i].carrierTx == Some(tx);
      assert invoices'[i].carrierTx == Some(tx);
    }
    forall tx | tx in Carriers(invoices') ensures tx in Carriers(invoices) {
      var i :| i in invoices' && invoices'[i].carrierTx == Some(tx);
      assert i in invoices && invoices[i].carrierTx == Some(tx);
    }
  }

  /** Each command keeps the invariant. */

  lemma CreateInvoiceInv(s: Receipts, inv: Invoice)
    requires Inv(s) && inv.id !in s.invoices
    requires inv.status == Open && inv.payer == None && inv.carrierTx == None
    ensures Inv(WithInvoice(s, inv))
  {
    var s' := WithInvoice(s, inv);
    forall id | id in s'.invoices ensures InvoiceOk(s', id) {
      assert id != inv.id ==> InvoiceOk(s, id);
    }
    CarriersKept(s.invoices, inv.id, inv);
    forall c | c in s'.customers ensures CustomerOk(s', c) {
      assert CustomerOk(s, c);
      assert forall id: nat :: PaidBy(s', c, id) == PaidBy(s, c, id);
    }
  }

  lemma SetStatusInv(s: Receipts, id: nat, status: InvoiceStatus, time: nat)
    requires Inv(s) && id in s.invoices
    requires (s.invoices[id].status == Open && status == Canceled) || (s.invoices[id].status == Paid && status == Acked)
    ensures Inv(SetStatus(s, id, status, time))
  {
    var s' := SetStatus(s, id, status, time);
    assert InvoiceOk(s, id);
    forall i | i in s'.invoices ensures InvoiceOk(s', i) {
      assert InvoiceOk(s, i);
    }
    CarriersKept(s.invoices, id, s'.invoices[id]);
    forall c | c in s'.customers ensures CustomerOk(s', c) {
      assert CustomerOk(s, c);
      assert forall i: nat :: PaidBy(s', c, i) == PaidBy(s, c, i);
    }
  }

  lemma PayInv(s: Receipts, id: nat, payer: PubKey, md: PayloadMetadata)
    requires Inv(s) && id in s.invoices && payer in s.customers
    requires s.invoices[id].status == Open && md.txId !in s.usedCarrierTxs
    ensures Inv(Pay(s, id, payer, md))
  {
    var s' := Pay(s, id, payer, md);
    forall i | i in s'.invoices ensures InvoiceOk(s', i) {
      assert InvoiceOk(s, i);
    }
    forall i | i in s'.subscriptions ensures SubscriptionOk(s', i) {
      assert SubscriptionOk(s, i);
    }
    forall c | c in s'.customers ensures CustomerOk(s', c) {
      PayCustomer(s, id, payer, md, c);
    }
    PayCarriers(s, id, payer, md);
  }

  /** An open invoice is on nobody's list. */
  lemma OpenUnlisted(s: Receipts, id: nat, c: PubKey)
    requires Inv(s) && id in s.invoices && s.invoices[id].payer == None && c in s.customers
    ensures id !in s.customers[c].invoices
  {
    assert CustomerOk(s, c) && PaidBy(s, c, id) == 0;
    Unlisted(s.customers[c].invoices, id);
  }

  lemma PayCustomer(s: Receipts, id: nat, payer: PubKey, md: PayloadMetadata, c: PubKey)
    requires Inv(s) && id in s.invoices && payer in s.customers && c in s.customers
    requires s.invoices[id].status == Open
    ensures CustomerOk(Pay(s, id, payer, md), c)
  {
    var s' := Pay(s, id, payer, md);
    assert InvoiceOk(s, id) && CustomerOk(s, c);
    OpenUnlisted(s, id, payer);
    forall i: nat ensures multiset(s'.customers[c].invoices)[i] == PaidBy(s', c, i) {
      assert multiset(s.customers[c].invoices)[i] == PaidBy(s, c, i);
    }
    forall i: nat ensures multiset(s'.customers[c].subscriptions)[i] == SubscribedBy(s', c, i) {
      assert multiset(s.customers[c].subscriptions)[i] == SubscribedBy(s, c, i);
    }
  }

  lemma PayCarriers(s: Receipts, id: nat, payer: PubKey, md: PayloadMetadata)
    requires Inv(s) && id in s.invoices && payer in s.customers
    requires s.invoices[id].status == Open && md.txId !in s.usedCarrierTxs
    ensures CarriersDistinct(Pay(s, id, payer, md).invoices)
    ensures Pay(s, id, payer, md).usedCarrierTxs == Carriers(Pay(s, id, payer, md).invoices)
  {
    var s' := Pay(s, id, payer, md);
    assert InvoiceOk(s, id);
    forall i | i in s.invoices ensures s.invoices[i].carrierTx != Some(md.txId) {
      assert InvoiceOk(s, i);
    }
    assert forall i :: i in s'.invoices && i != id ==> s'.invoices[i] == s.invoices[i];
    assert s'.invoices[id].carrierTx == Some(md.txId);
    forall tx ensures tx in Carriers(s'.invoices) <==> tx in Carriers(s.invoices) + {md.txId} {
      if tx in Carriers(s.invoices) {
        var i :| i in s.invoices && s.invoices[i].carrierTx == Some(tx);
        assert i != id && s'.invoices[i].carrierTx == Some(tx);
      }
    }
  }

  lemma SubscribeInv(s: Receipts, sub: Subscription)
    requires Inv(s) && sub.customer in s.customers && sub.id !in s.subscriptions
    ensures Inv(Subscribe(s, sub))
  {
    var s' := Subscribe(s, sub);
    forall i | i in s'.invoices ensures InvoiceOk(s', i) {
      assert InvoiceOk(s, i);
    }
    forall i | i in s'.subscriptions ensures SubscriptionOk(s', i) {
      assert i != sub.id ==> SubscriptionOk(s, i);
    }
    forall c | c in s'.customers ensures CustomerOk(s', c) {
      assert CustomerOk(s, c);
      forall i: nat ensures multiset(s'.customers[c].subscriptions)[i] == SubscribedBy(s', c, i) {
        assert multiset(s.customers[c].subscriptions)[i] == SubscribedBy(s, c, i);
      }
      assert forall i: nat :: PaidBy(s', c, i) == PaidBy(s, c, i);
    }
  }

  lemma UnsubscribeInv(s: Receipts, id: nat)
    requires Inv(s) && id in s.subscriptions
    ensures Inv(Unsubscribe(s, id))
  {
    var s' := Unsubscribe(s, id);
    var owner := s.subscriptions[id].customer;
    assert SubscriptionOk(s, id);
    forall i | i in s'.invoices ensures InvoiceOk(s', i) {
      assert InvoiceOk(s, i);
    }
    forall i | i in s'.subscriptions ensures SubscriptionOk(s', i) {
      assert SubscriptionOk(s, i);
    }
    WithoutCounts(s.customers[owner].subscriptions, id);
    forall c | c in s'.customers ensures CustomerOk(s', c) {
      assert CustomerOk(s, c);
      forall i: nat ensures multiset(s'.customers[c].subscriptions)[i] == SubscribedBy(s', c, i) {
        assert multiset(s.customers[c].subscriptions)[i] == SubscribedBy(s, c, i);
      }
      assert forall i: nat :: PaidBy(s', c, i) == PaidBy(s, c, i);
    }
  }

  lemma SetNextRunInv(s: Receipts, id: nat, nextRun: nat)
    requires Inv(s) && id in s.subscriptions
    ensures Inv(SetNextRun(s, id, nextRun))
  {
    var s' := SetNextRun(s, id, nextRun);
    forall i | i in s'.invoices ensures InvoiceOk(s', i) {
      assert InvoiceOk(s, i);
    }
    forall i | i in s'.subscriptions ensures SubscriptionOk(s', i) {
      assert SubscriptionOk(s, i);
    }
    forall c | c in s'.customers ensures CustomerOk(s', c) {
      assert CustomerOk(s, c);
      assert forall i: nat :: SubscribedBy(s', c, i) == SubscribedBy(s, c, i);
      assert forall i: nat :: PaidBy(s', c, i) == PaidBy(s, c, i);
    }
  }

  lemma ApplyInvoiceInv(s: Receipts, cmd: MerchantCommand, auth: Option<PubKey>, md: PayloadMetadata)
    requires Inv(s) && CheckCommand(s, cmd, auth, md).None?
    requires cmd.MarkPaid? || cmd.AckReceipt? || cmd.CancelInvoice?
    ensures Inv(Apply(s, cmd, auth, md).0)
  {
    match cmd {
      case MarkPaid(id, payer) => PayInv(s, id, payer, md);
      case AckReceipt(id) => SetStatusInv(s, id, Acked, md.acceptingTime);
      case CancelInvoice(id) => SetStatusInv(s, id, Canceled, md.acceptingTime);
    }
  }

  lemma ApplySubscriptionInv(s: Receipts, cmd: MerchantCommand, auth: Option<PubKey>, md: PayloadMetadata)
    requires Inv(s) && CheckCommand(s, cmd, auth, md).None?
    requires cmd.CreateSubscription? || cmd.ProcessSubscription? || cmd.CancelSubscription?
    ensures Inv(Apply(s, cmd, auth, md).0)
  {
    match cmd {
      case CreateSubscription(id, customer, amount, interval) =>
        var sub := Subscription(id, customer, amount, interval, md.acceptingTime + interval);
        assert Apply(s, cmd, auth, md).0 == Subscribe(s, sub);
        SubscribeInv(s, sub);
      case ProcessSubscription(id) =>
        var nextRun := md.acceptingTime + s.subscriptions[id].interval;
        assert Apply(s, cmd, auth, md).0 == SetNextRun(s, id, nextRun);
        SetNextRunInv(s, id, nextRun);
      case CancelSubscription(id) =>
        assert Apply(s, cmd, auth, md).0 == Unsubscribe(s, id);
        UnsubscribeInv(s, id);
    }
  }

  /** Every command, accepted or not, keeps the indices in agreement. */
  lemma ExecuteInv(s: Receipts, cmd: MerchantCommand, auth: Option<PubKey>, md: PayloadMetadata)
    requires Inv(s)
    ensures Inv(Execute(s, cmd, auth, md).0)
  {
    if CheckCommand(s, cmd, auth, md).None? {
      match cmd {
        case CreateInvoice(id, amount, memo) =>
          CreateInvoiceInv(s, Invoice(id, amount, memo, md.acceptingTime, md.acceptingTime, Open, None, None));
        case MarkPaid(_, _) => ApplyInvoiceInv(s, cmd, auth, md);
        case AckReceipt(_) => ApplyInvoiceInv(s, cmd, auth, md);
        case CancelInvoice(_) => ApplyInvoiceInv(s, cmd, auth, md);
        case _ => ApplySubscriptionInv(s, cmd, auth, md);
      }
    }
  }

  /** Loading tables written in agreement, and restarting from the tables of a running episode. */

  ghost predicate TablesOk(tables: Tables) {
    Inv(Load([], tables))
  }

  lemma LoadInv(keys: seq<PubKey>, tables: Tables)
    requires TablesOk(tables)
    ensures Inv(Load(keys, tables))
  {
    var s, s' := Load([], tables), Load(keys, tables);
    forall i | i in s'.invoices ensures InvoiceOk(s', i) {
      assert InvoiceOk(s, i);
    }
    forall i | i in s'.subscriptions ensures SubscriptionOk(s', i) {
      assert SubscriptionOk(s, i);
    }
    forall c | c in s'.customers ensures CustomerOk(s', c) {
      assert CustomerOk(s, c);
      assert forall i: nat :: SubscribedBy(s', c, i) == SubscribedBy(s, c, i);
      assert forall i: nat :: PaidBy(s', c, i) == PaidBy(s, c, i);
    }
  }

  /** The tables determine the state: a restart rebuilds it, used carriers included. */
  lemma RestartRebuilds(s: Receipts)
    requires Inv(s)
    ensures Load(s.merchantKeys, TablesOf(s)) == s
  {
  }
}
