/** Exactly when a command's rollback hands back the merchant, whether or not its indices agree. */
module MerchantReversal {
  import opened Wrappers
  import opened Primitives
  import opened Episodes
  import opened Merchant
  import opened MerchantInvariants
  import opened MerchantUndo

  ghost predicate Reversible(s: Receipts, cmd: MerchantCommand) {
    match cmd
    case MarkPaid(id, payer) =>
      id in s.invoices && payer in s.customers ==>
        s.invoices[id].payer.None? && s.invoices[id].carrierTx.None? && id !in s.customers[payer].invoices
    case CreateSubscription(id, customer, _, _) =>
      customer in s.customers ==> id !in s.customers[customer].subscriptions
    case CancelSubscription(id) =>
      id in s.subscriptions ==>
        var sub := s.subscriptions[id];
        && sub.id == id
        && (sub.customer in s.customers ==> multiset(s.customers[sub.customer].subscriptions)[id] == 1)
    case _ => true
  }

  ghost predicate HandedBack(s: Receipts, s': Receipts, r: MerchantRollback) {
    Rollback(s', r).1 && Same(Rollback(s', r).0, s)
  }

  lemma PaymentReversible(s: Receipts, id: nat, payer: PubKey, md: PayloadMetadata)
    requires id in s.invoices && payer in s.customers && s.invoices[id].status == Open
    requires md.txId !in s.usedCarrierTxs
    ensures HandedBack(s, Pay(s, id, payer, md), UndoPaid(id)) <==> Reversible(s, MarkPaid(id, payer))
  {
    var inv, info := s.invoices[id], s.customers[payer];
    var paid := Pay(s, id, payer, md);
    var back := Unpay(paid, id);
    assert back.usedCarrierTxs == s.usedCarrierTxs;
    UnpaidInvoices(s, id, payer, md);
    UnpaidCustomers(s, id, payer, md);
  }

  lemma UnpaidInvoices(s: Receipts, id: nat, payer: PubKey, md: PayloadMetadata)
    requires id in s.invoices && payer in s.customers && s.invoices[id].status == Open
    ensures SameInvoices(Unpay(Pay(s, id, payer, md), id).invoices, s.invoices) <==>
            s.invoices[id].payer.None? && s.invoices[id].carrierTx.None?
  {
    var back := Unpay(Pay(s, id, payer, md), id);
    assert back.invoices.Keys == s.invoices.Keys;
    assert back.invoices[id] ==
           s.invoices[id].(lastUpdate := md.acceptingTime, payer := None, carrierTx := None);
    assert SameInvoices(back.invoices, s.invoices) <==> SameInvoice(back.invoices[id], s.invoices[id]);
  }

  lemma UnpaidCustomers(s: Receipts, id: nat, payer: PubKey, md: PayloadMetadata)
    requires id in s.invoices && payer in s.customers
    ensures SameCustomers(Unpay(Pay(s, id, payer, md), id).customers, s.customers) <==>
            id !in s.customers[payer].invoices
  {
    var back, info := Unpay(Pay(s, id, payer, md), id), s.customers[payer];
    assert back.customers.Keys == s.customers.Keys;
    assert SameCustomers(back.customers, s.customers) <==> SameCustomer(back.customers[payer], info);
    if id in info.invoices {
      assert back.customers[payer].invoices == Without(info.invoices, id);
      WithoutCounts(info.invoices, id);
      assert multiset(info.invoices)[id] > 0;
      assert multiset(back.customers[payer].invoices)[id] == 0;
    } else {
      WithoutAppended(info.invoices, id);
      assert back.customers[payer] == info;
    }
  }

  lemma SubscriptionReversible(s: Receipts, sub: Subscription)
    requires sub.customer in s.customers && sub.id !in s.subscriptions
    ensures HandedBack(s, Subscribe(s, sub), UndoCreateSubscription(sub.id)) <==>
            sub.id !in s.customers[sub.customer].subscriptions
  {
    var back := Unsubscribe(Subscribe(s, sub), sub.id);
    assert back.subscriptions == s.subscriptions;
    UnsubscribedCustomers(s, sub);
  }

  lemma UnsubscribedCustomers(s: Receipts, sub: Subscription)
    requires sub.customer in s.customers
    ensures SameCustomers(Unsubscribe(Subscribe(s, sub), sub.id).customers, s.customers) <==>
            sub.id !in s.customers[sub.customer].subscriptions
  {
    var back := Unsubscribe(Subscribe(s, sub), sub.id);
    var list: seq<nat> := s.customers[sub.customer].subscriptions;
    var listed: seq<nat> := Without(list + [sub.id], sub.id);
    assert back.customers == s.customers[sub.customer := s.customers[sub.customer].(subscriptions := listed)];
    assert SameCustomers(back.customers, s.customers) <==>
           SameCustomer(back.customers[sub.customer], s.customers[sub.customer]);
    AppendedOnly(list, sub.id);
  }

  /** Appending an id and taking out all its occurrences leads back exactly if it was not listed. */
  lemma AppendedOnly(list: seq<nat>, id: nat)
    ensures multiset(Without(list + [id], id)) == multiset(list) <==> id !in list
  {
    if id in list {
      WithoutCounts(list + [id], id);
      assert multiset(list)[id] > 0 && multiset(Without(list + [id], id))[id] == 0;
    } else {
      WithoutAppended(list, id);
    }
  }

  lemma CancellationReversible(s: Receipts, id: nat)
    requires id in s.subscriptions
    ensures HandedBack(s, Unsubscribe(s, id), UndoCancelSubscription(s.subscriptions[id])) <==>
            Reversible(s, CancelSubscription(id))
  {
    var sub := s.subscriptions[id];
    var back := Resubscribe(Unsubscribe(s, id), sub);
    assert back.subscriptions == (s.subscriptions - {id})[sub.id := sub];
    if sub.id == id {
      assert back.subscriptions == s.subscriptions;
      RelistedCustomers(s, id);
    } else {
      assert id !in back.subscriptions;
    }
  }

  lemma RelistedCustomers(s: Receipts, id: nat)
    requires id in s.subscriptions && s.subscriptions[id].id == id
    ensures
      var sub := s.subscriptions[id];
      SameCustomers(Resubscribe(Unsubscribe(s, id), sub).customers, s.customers) <==>
      (sub.customer in s.customers ==> multiset(s.customers[sub.customer].subscriptions)[id] == 1)
  {
    var sub := s.subscriptions[id];
    var back := Resubscribe(Unsubscribe(s, id), sub);
    if sub.customer in s.customers {
      var list: seq<nat> := s.customers[sub.customer].subscriptions;
      WithoutCounts(list, id);
      Unlisted(Without(list, id), id);
      assert back.customers[sub.customer].subscriptions == Without(list, id) + [id];
      assert back.customers[sub.customer].invoices == s.customers[sub.customer].invoices;
      var relisted: seq<nat> := Without(list, id) + [id];
      assert multiset(relisted) == multiset(list)[id := 1];
      assert SameCustomers(back.customers, s.customers) <==>
             SameCustomer(back.customers[sub.customer], s.customers[sub.customer]);
    }
  }

  /** Whatever the merchant's indices say. */
  lemma HandedBackIff(s: Receipts, cmd: MerchantCommand, auth: Option<PubKey>, md: PayloadMetadata)
    requires Execute(s, cmd, auth, md).1.Ok?
    ensures HandedBack(s, Execute(s, cmd, auth, md).0, Execute(s, cmd, auth, md).1.value) <==> Reversible(s, cmd)
  {
    match cmd {
      case MarkPaid(id, payer) =>
        assert Execute(s, cmd, auth, md) == (Pay(s, id, payer, md), Ok(UndoPaid(id)));
        PaymentReversible(s, id, payer, md);
      case CreateSubscription(id, customer, amount, interval) =>
        SubscriptionReversible(s, Subscription(id, customer, amount, interval, md.acceptingTime + interval));
      case CancelSubscription(id) => CancellationReversible(s, id);
      case ProcessSubscription(id) => UndoProcessing(s, id, md.acceptingTime + s.subscriptions[id].interval, md);
      case _ => AlwaysReversible(s, cmd, auth, md);
    }
  }

  lemma AlwaysReversible(s: Receipts, cmd: MerchantCommand, auth: Option<PubKey>, md: PayloadMetadata)
    requires Execute(s, cmd, auth, md).1.Ok? && (cmd.CreateInvoice? || cmd.AckReceipt? || cmd.CancelInvoice?)
    ensures HandedBack(s, Execute(s, cmd, auth, md).0, Execute(s, cmd, auth, md).1.value)
  {
    match cmd {
      case CreateInvoice(id, amount, memo) =>
        UndoCreation(s, Invoice(id, amount, memo, md.acceptingTime, md.acceptingTime, Open, None, None), cmd, md);
      case AckReceipt(id) => UndoStatus(s, id, md);
      case CancelInvoice(id) => UndoStatus(s, id, md);
    }
  }
}
